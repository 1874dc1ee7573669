/** Reading a written index back gives the documents, the passages and the receipt it was written from. */
module IndexReadBack {
  import opened Base
  import opened CatalogSchema
  import opened Ordering
  import opened IndexDocuments
  import opened IndexContent
  import opened CanonicalJson
  import opened Digests
  import opened IndexTables

  // ---- one column

  /** The slots of one version, in the order of the rows. */
  function Own(slots: seq<Slot>, v: Id): seq<Slot> {
    if slots == [] then []
    else
      var rest := Own(slots[..|slots| - 1], v);
      if slots[|slots| - 1].version == v then rest + [slots[|slots| - 1]] else rest
  }

  function Values<T>(slots: seq<Slot>, table: map<Slot, T>): seq<T>
    requires forall s :: s in slots ==> s in table
  {
    seq(|slots|, i requires 0 <= i < |slots| => table[slots[i]])
  }

  lemma {:induction false} OwnMembers(slots: seq<Slot>, v: Id)
    ensures forall s :: s in Own(slots, v) <==> s in slots && s.version == v
  {
    if slots != [] {
      OwnMembers(slots[..|slots| - 1], v);
      assert slots == slots[..|slots| - 1] + [slots[|slots| - 1]];
    }
  }

  lemma {:induction false} GroupedIsOwn<T>(slots: seq<Slot>, table: map<Slot, T>, v: Id)
    requires forall s :: s in slots ==> s in table
    ensures forall s :: s in Own(slots, v) ==> s in table
    ensures var m := Grouped(slots, table);
      (v in m <==> Own(slots, v) != []) && (v in m ==> m[v] == Values(Own(slots, v), table))
  {
    OwnMembers(slots, v);
    if slots != [] {
      var init, last := slots[..|slots| - 1], slots[|slots| - 1];
      OwnMembers(init, v);
      GroupedIsOwn(init, table, v);
      if last.version == v {
        assert Values(Own(init, v) + [last], table) == Values(Own(init, v), table) + [table[last]];
      }
    }
  }

  lemma {:induction false} OwnIsSorted(slots: seq<Slot>, v: Id)
    requires Sorted(slots, SlotKey)
    ensures forall i, j :: 0 <= i < j < |Own(slots, v)| ==> Own(slots, v)[i].position < Own(slots, v)[j].position
  {
    if slots != [] {
      var init, last := slots[..|slots| - 1], slots[|slots| - 1];
      OwnIsSorted(init, v);
      OwnMembers(init, v);
      forall s | s in Own(init, v) && last.version == v
        ensures s.position < last.position
      {
        var k :| 0 <= k < |init| && init[k] == s;
        assert KeyLess(SlotKey(slots[k]), SlotKey(last));
        TwoColumns(SlotKey(s), SlotKey(last));
      }
    }
  }

  lemma {:induction false} PositionAtLeast(s: seq<Slot>, i: nat)
    requires (forall i, j :: 0 <= i < j < |s| ==> s[i].position < s[j].position) && i < |s|
    ensures i <= s[i].position
  {
    if i > 0 {
      PositionAtLeast(s, i - 1);
      assert s[i - 1].position < s[i].position;
    }
  }

  lemma PositionAtMost(s: seq<Slot>, i: nat, j: nat)
    requires (forall i, j :: 0 <= i < j < |s| ==> s[i].position < s[j].position) && i <= j < |s|
    ensures s[i].position <= s[j].position
  {
  }

  /** Increasing positions that are exactly 0 to n-1 are 0 to n-1 in order. */
  lemma {:induction false} PositionsAre(s: seq<Slot>, v: Id, n: nat, k: nat)
    requires forall i, j :: 0 <= i < j < |s| ==> s[i].position < s[j].position
    requires forall p: nat :: p < n ==> Slot(v, p) in s
    requires k <= n
    ensures k <= |s| && (forall i :: 0 <= i < k ==> s[i].position == i)
  {
    if k > 0 {
      PositionsAre(s, v, n, k - 1);
      var i :| 0 <= i < |s| && s[i] == Slot(v, k - 1);
      PositionAtLeast(s, k - 1);
      PositionAtMost(s, k - 1, i);
    }
  }

  ghost predicate HoldsColumn<T>(table: map<Slot, T>, v: Id, values: seq<T>) {
    && (forall p: nat :: Slot(v, p) in table <==> p < |values|)
    && (forall p: nat :: p < |values| ==> Slot(v, p) in table && table[Slot(v, p)] == values[p])
  }

  lemma ColumnIs<T>(table: map<Slot, T>, v: Id, values: seq<T>)
    requires HoldsColumn(table, v, values)
    ensures ColumnOf(table, v) == values
  {
    SlotRowsAreKeys(table);
    var rows := SlotRows(table);
    var own := Own(rows, v);
    OwnMembers(rows, v);
    OwnIsSorted(rows, v);
    GroupedIsOwn(rows, table, v);
    forall i | 0 <= i < |own|
      ensures own[i] == Slot(v, own[i].position) && own[i].position < |values|
    {
      assert own[i] in own;
    }
    PositionsAre(own, v, |values|, |values|);
    forall i | 0 <= i < |own|
      ensures i < |values| && own[i] == Slot(v, i) && own[i] in table && table[own[i]] == values[i]
    {
      assert own[i] in own;
      PositionAtLeast(own, i);
    }
    assert |own| == 0 || own[|own| - 1] == Slot(v, |own| - 1);
    assert Values(own, table) == values;
  }

  // ---- the tables of a sequence of documents

  ghost predicate DistinctVersions(documents: seq<Document>) {
    forall i, j :: 0 <= i < j < |documents| ==> documents[i].version != documents[j].version
  }

  function ChildTable<T>(documents: seq<Document>, f: Document -> seq<T>): map<Slot, T> {
    if documents == [] then map[]
    else
      var d := documents[|documents| - 1];
      ChildTable(documents[..|documents| - 1], f) + Slots(d.version, f(d))
  }

  lemma {:induction false} ChildVersions<T>(documents: seq<Document>, f: Document -> seq<T>)
    ensures forall s :: s in ChildTable(documents, f) ==>
      exists i :: 0 <= i < |documents| && documents[i].version == s.version
  {
    if documents != [] {
      ChildVersions(documents[..|documents| - 1], f);
    }
  }

  lemma {:induction false} ChildColumns<T>(documents: seq<Document>, f: Document -> seq<T>)
    requires DistinctVersions(documents)
    ensures forall i :: 0 <= i < |documents| ==> HoldsColumn(ChildTable(documents, f), documents[i].version, f(documents[i]))
  {
    if documents != [] {
      var init, d := documents[..|documents| - 1], documents[|documents| - 1];
      ChildColumns(init, f);
      ChildVersions(init, f);
      forall i | 0 <= i < |documents|
        ensures HoldsColumn(ChildTable(documents, f), documents[i].version, f(documents[i]))
      {
        if i < |init| {
          assert HoldsColumn(ChildTable(init, f), init[i].version, f(init[i]));
        }
      }
    }
  }

  function AuthorsIn(u: Unicode): Document -> seq<NameRow> {
    (d: Document) => NameRows(u, d.authors)
  }

  const IDENTIFIERS_IN := (d: Document) => d.identifiers
  const CATEGORIES_IN := (d: Document) => d.categories
  const COLLECTIONS_IN := (d: Document) => d.collections

  lemma {:induction false} ChildTablesOf(u: Unicode, documents: seq<Document>)
    ensures var t := PutDocuments(u, documents);
      && t.authors == ChildTable(documents, AuthorsIn(u)) && t.identifiers == ChildTable(documents, IDENTIFIERS_IN)
      && t.categories == ChildTable(documents, CATEGORIES_IN) && t.collections == ChildTable(documents, COLLECTIONS_IN)
      && t.paperText == PaperTexts(documents) && t.passages == map[] && t.passageText == []
  {
    hide RowOf, NameRows, Slots;
    if documents != [] {
      var init, d := documents[..|documents| - 1], documents[|documents| - 1];
      ChildTablesOf(u, init);
      assert PaperTexts(documents) == PaperTexts(init) + [PaperText(d.version, d.title, d.abstractText)];
    }
  }

  function VersionsOf(documents: seq<Document>): seq<Id> {
    seq(|documents|, i requires 0 <= i < |documents| => documents[i].version)
  }

  lemma {:induction false} DocumentRowsOf(u: Unicode, documents: seq<Document>)
    requires DistinctVersions(documents)
    ensures var t := PutDocuments(u, documents);
      && (forall v :: v in t.documents <==> v in VersionsOf(documents)) && |t.documents| == |documents|
      && (forall i :: 0 <= i < |documents| ==>
            documents[i].version in t.documents && t.documents[documents[i].version] == RowOf(u, documents[i]))
  {
    hide RowOf, NameRows, Slots;
    if documents != [] {
      var init, d := documents[..|documents| - 1], documents[|documents| - 1];
      DocumentRowsOf(u, init);
      var s, t := PutDocuments(u, init), PutDocuments(u, documents);
      assert t.documents == s.documents[d.version := RowOf(u, d)];
      assert VersionsOf(documents) == VersionsOf(init) + [d.version];
      assert d.version !in VersionsOf(init);
      forall i | 0 <= i < |documents|
        ensures documents[i].version in t.documents && t.documents[documents[i].version] == RowOf(u, documents[i])
      {
        if i < |init| {
          assert init[i].version == documents[i].version != d.version;
        }
      }
    }
  }

  lemma NamesReadBack(u: Unicode, names: seq<string>)
    ensures NamesOf(NameRows(u, names)) == names
  {
  }

  /** The rows of a document, wherever it stands, give the document back. */
  lemma DocumentReadsBack(u: Unicode, documents: seq<Document>, i: nat)
    requires DistinctVersions(documents) && i < |documents|
    ensures documents[i].version in PutDocuments(u, documents).documents
    ensures ReadDocument(PutDocuments(u, documents), documents[i].version) == documents[i]
  {
    hide ColumnOf;
    var t, d := PutDocuments(u, documents), documents[i];
    ChildTablesOf(u, documents);
    DocumentRowsOf(u, documents);
    ChildColumns(documents, AuthorsIn(u));
    ChildColumns(documents, IDENTIFIERS_IN);
    ChildColumns(documents, CATEGORIES_IN);
    ChildColumns(documents, COLLECTIONS_IN);
    ColumnIs(t.authors, d.version, NameRows(u, d.authors));
    ColumnIs(t.identifiers, d.version, d.identifiers);
    ColumnIs(t.categories, d.version, d.categories);
    ColumnIs(t.collections, d.version, d.collections);
    NamesReadBack(u, d.authors);
  }

  // ---- row order

  lemma DocumentsBefore(c: Document, d: Document)
    requires c.version != d.version && KeyLess(DocumentKey(c), DocumentKey(d))
    ensures c.paper < d.paper || (c.paper == d.paper && c.version < d.version)
  {
    var a, b := DocumentKey(c), DocumentKey(d);
    FirstDifference(a, b, if a[0] != b[0] then 0 else 1);
  }

  lemma DocumentRowsInOrder(u: Unicode, documents: seq<Document>, t: Tables)
    requires DistinctVersions(documents) && Sorted(documents, DocumentKey)
    requires t.documents == PutDocuments(u, documents).documents
    ensures DocumentRows(t) == VersionsOf(documents)
  {
    DocumentRowsOf(u, documents);
    DocumentRowKeyInjective(t);
    var s := VersionsOf(documents);
    forall i, j | 0 <= i < j < |s|
      ensures KeyLess(DocumentRowKey(t)(s[i]), DocumentRowKey(t)(s[j]))
    {
      assert DocumentRowKey(t)(s[i]) == DocumentKey(documents[i]);
      assert DocumentRowKey(t)(s[j]) == DocumentKey(documents[j]);
    }
    OrderedListIsUnique(t.documents.Keys, DocumentRowKey(t), s);
  }

  // ---- passages

  function PassageKey(p: Passage): SortKey {
    [Number(p.paper), Number(p.identity.version), Number(p.identity.ordinal), Text(Hex(p.id.preimage))]
  }

  ghost predicate PassageOf(u: Unicode, p: Passage, d: Document) {
    && p.paper == d.paper && p.identity.version == d.version && p.identity.ordinal < 2
    && p.id == PassageId(u, p.identity)
  }

  lemma PassagesOfDocument(u: Unicode, d: Document, chunks: string)
    ensures var s := PassagesOf(u, d, chunks);
      && (forall i :: 0 <= i < |s| ==> PassageOf(u, s[i], d))
      && (forall i, j :: 0 <= i < j < |s| ==> s[i].identity.ordinal < s[j].identity.ordinal)
  {
    hide Normalize, Blank, PassageId;
  }

  lemma {:induction false} PassageOwners(u: Unicode, documents: seq<Document>, chunks: string)
    ensures forall p :: p in AllPassages(u, documents, chunks) ==> exists d :: d in documents && PassageOf(u, p, d)
  {
    hide PassagesOf, PassageOf;
    if documents != [] {
      var init, d := documents[..|documents| - 1], documents[|documents| - 1];
      PassageOwners(u, init, chunks);
      PassagesOfDocument(u, d, chunks);
    }
  }

  predicate PassageBefore(p: Passage, q: Passage) {
    || p.paper < q.paper
    || (p.paper == q.paper && p.identity.version < q.identity.version)
    || (p.paper == q.paper && p.identity.version == q.identity.version && p.identity.ordinal < q.identity.ordinal)
  }

  /** Passages are written in the order in which the receipt query reads them. */
  lemma {:induction false} PassagesInOrder(u: Unicode, documents: seq<Document>, chunks: string)
    requires DistinctVersions(documents) && Sorted(documents, DocumentKey)
    ensures var s := AllPassages(u, documents, chunks); forall i, j :: 0 <= i < j < |s| ==> PassageBefore(s[i], s[j])
  {
    hide PassagesOf, KeyLess, DocumentKey, PassageId;
    if documents != [] {
      var init, d := documents[..|documents| - 1], documents[|documents| - 1];
      PassagesInOrder(u, init, chunks);
      PassageOwners(u, init, chunks);
      PassagesOfDocument(u, d, chunks);
      var s, m := AllPassages(u, documents, chunks), |AllPassages(u, init, chunks)|;
      forall i, j | 0 <= i < m <= j < |s|
        ensures PassageBefore(s[i], s[j])
      {
        assert s[i] in AllPassages(u, init, chunks);
        var c :| c in init && PassageOf(u, s[i], c);
        var k :| 0 <= k < |init| && init[k] == c;
        assert documents[k] == c;
        DocumentsBefore(c, d);
        assert PassageOf(u, PassagesOf(u, d, chunks)[j - m], d);
      }
    }
  }

  lemma PassageKeysInOrder(p: Passage, q: Passage)
    requires PassageBefore(p, q)
    ensures KeyLess(PassageKey(p), PassageKey(q))
  {
    var a, b := PassageKey(p), PassageKey(q);
    FirstDifference(a, b, if a[0] != b[0] then 0 else if a[1] != b[1] then 1 else 2);
  }

  /** The constructor checks of PassageIdentity: passage text is normalized. */
  ghost predicate AllNormalized(u: Unicode, passages: seq<Passage>) {
    forall i :: 0 <= i < |passages| ==> IsNormalized(u, passages[i].identity)
  }

  ghost predicate DistinctIds(passages: seq<Passage>) {
    forall i, j :: 0 <= i < j < |passages| ==> passages[i].id != passages[j].id
  }

  /** passage_id is a primary key: no two passages of an index have the same digest. */
  lemma PassageIdsDistinct(u: Unicode, documents: seq<Document>, chunks: string)
    requires DistinctVersions(documents) && Sorted(documents, DocumentKey)
    requires AllNormalized(u, AllPassages(u, documents, chunks))
    ensures DistinctIds(AllPassages(u, documents, chunks))
  {
    hide AllPassages, IsNormalized, PassageId, KeyLess;
    PassagesInOrder(u, documents, chunks);
    PassageOwners(u, documents, chunks);
    var s := AllPassages(u, documents, chunks);
    forall i, j | 0 <= i < j < |s|
      ensures s[i].id != s[j].id
    {
      assert s[i] in s && s[j] in s && PassageBefore(s[i], s[j]);
      var c :| c in documents && PassageOf(u, s[i], c);
      var d :| d in documents && PassageOf(u, s[j], d);
      if s[i].id == s[j].id {
        PassageIdInjective(u, s[i].identity, s[j].identity);
        SameVersionSamePaper(documents, c, d);
      }
    }
  }

  lemma SameVersionSamePaper(documents: seq<Document>, c: Document, d: Document)
    requires DistinctVersions(documents) && c in documents && d in documents && c.version == d.version
    ensures c == d
  {
    var i :| 0 <= i < |documents| && documents[i] == c;
    var j :| 0 <= j < |documents| && documents[j] == d;
  }

  function IdsOf(passages: seq<Passage>): seq<Sha256> {
    seq(|passages|, i requires 0 <= i < |passages| => passages[i].id)
  }

  lemma {:induction false} PassageRowsOf(t: Tables, passages: seq<Passage>)
    requires t.passages == map[] && t.passageText == [] && DistinctIds(passages)
    ensures var v := PutPassages(t, passages);
      && v == t.(passages := v.passages, passageText := PassageTexts(passages))
      && (forall p :: p in v.passages <==> p in IdsOf(passages)) && |v.passages| == |passages|
      && (forall i :: 0 <= i < |passages| ==>
            && passages[i].id in v.passages
            && v.passages[passages[i].id] == PassageRow(passages[i].paper, passages[i].observation, passages[i].identity))
  {
    if passages != [] {
      var init, p := passages[..|passages| - 1], passages[|passages| - 1];
      PassageRowsOf(t, init);
      var r, v := PutPassages(t, init), PutPassages(t, passages);
      assert IdsOf(passages) == IdsOf(init) + [p.id] && p.id !in IdsOf(init);
      assert PassageTexts(passages) == PassageTexts(init) + [PassageText(p.id, p.identity.text)];
      forall i | 0 <= i < |passages|
        ensures passages[i].id in v.passages
        ensures v.passages[passages[i].id] == PassageRow(passages[i].paper, passages[i].observation, passages[i].identity)
      {
        if i < |init| {
          assert init[i].id == passages[i].id != p.id;
        }
      }
    }
  }

  lemma PassagesReadBack(t: Tables, passages: seq<Passage>)
    requires forall i, j :: 0 <= i < j < |passages| ==> PassageBefore(passages[i], passages[j])
    requires forall p :: p in t.passages <==> p in IdsOf(passages)
    requires forall i :: 0 <= i < |passages| ==>
      && passages[i].id in t.passages
      && t.passages[passages[i].id] == PassageRow(passages[i].paper, passages[i].observation, passages[i].identity)
    ensures ReadPassages(t) == passages
  {
    hide PassageBefore;
    PassageRowKeyInjective(t);
    var s := IdsOf(passages);
    forall i, j | 0 <= i < j < |s|
      ensures KeyLess(PassageRowKey(t)(s[i]), PassageRowKey(t)(s[j]))
    {
      PassageKeysInOrder(passages[i], passages[j]);
      assert PassageRowKey(t)(s[i]) == PassageKey(passages[i]) && PassageRowKey(t)(s[j]) == PassageKey(passages[j]);
    }
    OrderedListIsUnique(t.passages.Keys, PassageRowKey(t), s);
    PassageRowsAreKeys(t);
  }

  lemma DocumentsReadBack(u: Unicode, documents: seq<Document>, t: Tables)
    requires DistinctVersions(documents) && Sorted(documents, DocumentKey)
    requires t == PutDocuments(u, documents).(passages := t.passages, passageText := t.passageText, meta := t.meta)
    ensures ReadDocuments(t) == documents
  {
    hide PutDocuments, ReadDocument, KeyLess;
    DocumentRowsInOrder(u, documents, t);
    DocumentRowsAreKeys(t);
    forall i | 0 <= i < |documents|
      ensures documents[i].version in t.documents && ReadDocument(t, documents[i].version) == documents[i]
    {
      DocumentReadsBack(u, documents, i);
      SameReading(t, PutDocuments(u, documents), documents[i].version);
    }
  }

  lemma SameReading(s: Tables, t: Tables, v: Id)
    requires s.documents == t.documents && s.authors == t.authors && s.identifiers == t.identifiers
    requires s.categories == t.categories && s.collections == t.collections && v in s.documents
    ensures ReadDocument(s, v) == ReadDocument(t, v)
  {
  }

  // ---- folds

  /** Whether the builder and the schema fold every author name and language of a document alike. */
  ghost predicate FoldsAlike(u: Unicode, d: Document) {
    && (forall i :: 0 <= i < |d.authors| ==> WrittenFold(u, d.authors[i]) == CheckedFold(u, d.authors[i]))
    && (d.language.Some? ==> WrittenFold(u, d.language.value) == CheckedFold(u, d.language.value))
  }

  ghost predicate AllFoldAlike(u: Unicode, documents: seq<Document>) {
    forall i :: 0 <= i < |documents| ==> FoldsAlike(u, documents[i])
  }

  /** The author row in a slot belongs to document i. */
  ghost predicate NamesSlot(u: Unicode, documents: seq<Document>, s: Slot, row: NameRow, i: nat) {
    && i < |documents| && documents[i].version == s.version
    && s.position < |documents[i].authors| && row == NameRows(u, documents[i].authors)[s.position]
  }

  lemma {:induction false} NamesInTable(u: Unicode, documents: seq<Document>)
    ensures var table := ChildTable(documents, AuthorsIn(u));
      forall s :: s in table ==> exists i: nat :: NamesSlot(u, documents, s, table[s], i)
  {
    if documents != [] {
      var init, d := documents[..|documents| - 1], documents[|documents| - 1];
      NamesInTable(u, init);
      var table := ChildTable(documents, AuthorsIn(u));
      assert table == ChildTable(init, AuthorsIn(u)) + Slots(d.version, NameRows(u, d.authors));
      forall s | s in table
        ensures exists i: nat :: NamesSlot(u, documents, s, table[s], i)
      {
        if s in Slots(d.version, NameRows(u, d.authors)) {
          assert NamesSlot(u, documents, s, table[s], |documents| - 1);
        } else {
          var i: nat :| NamesSlot(u, init, s, table[s], i);
          assert NamesSlot(u, documents, s, table[s], i);
        }
      }
    }
  }

  lemma AgreeMeansAlike(u: Unicode, documents: seq<Document>, t: Tables, i: nat)
    requires DistinctVersions(documents) && i < |documents| && FoldsAgree(u, t)
    requires t.documents == PutDocuments(u, documents).documents && t.authors == PutDocuments(u, documents).authors
    ensures FoldsAlike(u, documents[i])
  {
    hide PutDocuments, WrittenFold, CheckedFold;
    ChildTablesOf(u, documents);
    DocumentRowsOf(u, documents);
    ChildColumns(documents, AuthorsIn(u));
    var d := documents[i];
    assert HoldsColumn(t.authors, d.version, NameRows(u, d.authors));
    forall p | 0 <= p < |d.authors|
      ensures WrittenFold(u, d.authors[p]) == CheckedFold(u, d.authors[p])
    {
      assert t.authors[Slot(d.version, p)] == NameRows(u, d.authors)[p];
    }
  }

  lemma AlikeNames(u: Unicode, documents: seq<Document>, s: Slot)
    requires AllFoldAlike(u, documents) && s in ChildTable(documents, AuthorsIn(u))
    ensures var row := ChildTable(documents, AuthorsIn(u))[s]; row.folded == CheckedFold(u, row.name)
  {
    hide WrittenFold, CheckedFold, ChildTable;
    NamesInTable(u, documents);
    var i: nat :| NamesSlot(u, documents, s, ChildTable(documents, AuthorsIn(u))[s], i);
    assert FoldsAlike(u, documents[i]);
  }

  lemma AlikeLanguage(u: Unicode, documents: seq<Document>, v: Id)
    requires DistinctVersions(documents) && AllFoldAlike(u, documents) && v in PutDocuments(u, documents).documents
    ensures var row := PutDocuments(u, documents).documents[v];
      row.languageFolded == if row.language.Some? then Some(CheckedFold(u, row.language.value)) else None
  {
    hide PutDocuments, WrittenFold, CheckedFold;
    DocumentRowsOf(u, documents);
    assert v in VersionsOf(documents);
    var i :| 0 <= i < |documents| && documents[i].version == v;
    assert FoldsAlike(u, documents[i]);
  }

  lemma AlikeMeansAgree(u: Unicode, documents: seq<Document>, t: Tables)
    requires DistinctVersions(documents) && AllFoldAlike(u, documents)
    requires t.documents == PutDocuments(u, documents).documents && t.authors == PutDocuments(u, documents).authors
    ensures FoldsAgree(u, t)
  {
    hide PutDocuments, WrittenFold, CheckedFold, AllFoldAlike, DistinctVersions, ChildTable;
    ChildTablesOf(u, documents);
    forall v | v in t.documents
      ensures t.documents[v].languageFolded ==
                if t.documents[v].language.Some? then Some(CheckedFold(u, t.documents[v].language.value)) else None
    {
      AlikeLanguage(u, documents, v);
    }
    forall s | s in t.authors
      ensures t.authors[s].folded == CheckedFold(u, t.authors[s].name)
    {
      AlikeNames(u, documents, s);
    }
  }

  lemma FoldsAgreeIffAlike(u: Unicode, documents: seq<Document>, t: Tables)
    requires DistinctVersions(documents)
    requires t.documents == PutDocuments(u, documents).documents && t.authors == PutDocuments(u, documents).authors
    ensures FoldsAgree(u, t) <==> AllFoldAlike(u, documents)
  {
    hide FoldsAgree, PutDocuments, FoldsAlike, DistinctVersions;
    if FoldsAgree(u, t) {
      forall i | 0 <= i < |documents|
        ensures FoldsAlike(u, documents[i])
      {
        AgreeMeansAlike(u, documents, t, i);
      }
    }
    if AllFoldAlike(u, documents) {
      AlikeMeansAgree(u, documents, t);
    }
  }

  // ---- carriage returns

  lemma {:induction false} LinesDropsReturns(s: string)
    ensures '\r' !in Lines(s) && ('\r' !in s ==> Lines(s) == s)
    decreases |s|
  {
    if s != "" {
      assert s == [s[0]] + s[1..];
      if s[0] != '\r' {
        LinesDropsReturns(s[1..]);
      } else if |s| > 1 && s[1] == '\n' {
        LinesDropsReturns(s[2..]);
      } else {
        LinesDropsReturns(s[1..]);
      }
    }
  }

  /** Normalization and case folding neither make nor drop carriage returns. */
  ghost predicate KeepsReturns(u: Unicode) {
    forall s: string :: '\r' in CheckedFold(u, s) <==> '\r' in s
  }

  predicate HasNoReturn(d: Document) {
    && (forall i :: 0 <= i < |d.authors| ==> '\r' !in d.authors[i])
    && (d.language.Some? ==> '\r' !in d.language.value)
  }

  lemma FoldsAlikeIffNoReturn(u: Unicode, s: string)
    requires KeepsReturns(u)
    ensures WrittenFold(u, s) == CheckedFold(u, s) <==> '\r' !in s
  {
    LinesDropsReturns(s);
    assert WrittenFold(u, s) == CheckedFold(u, Lines(s));
  }

  /** The two _fold functions agree on a document exactly when its authors and language have no carriage return. */
  lemma AlikeIffNoReturn(u: Unicode, d: Document)
    requires KeepsReturns(u)
    ensures FoldsAlike(u, d) <==> HasNoReturn(d)
  {
    hide KeepsReturns, WrittenFold, CheckedFold;
    forall i | 0 <= i < |d.authors|
      ensures WrittenFold(u, d.authors[i]) == CheckedFold(u, d.authors[i]) <==> '\r' !in d.authors[i]
    {
      FoldsAlikeIffNoReturn(u, d.authors[i]);
    }
    if d.language.Some? {
      FoldsAlikeIffNoReturn(u, d.language.value);
    }
  }

  // ---- the receipt

  /** The receipt read back is the one computed before writing, exactly when both folds agree on every author and
      language; the documents and passages read back are always the ones written. */
  lemma WrittenReadsBack(u: Unicode, documents: seq<Document>, chunks: string, generation: nat, revision: nat)
    requires DistinctVersions(documents) && Sorted(documents, DocumentKey)
    requires AllNormalized(u, AllPassages(u, documents, chunks))
    ensures var passages := AllPassages(u, documents, chunks);
      var receipt := ReceiptOf(u, documents, chunks, generation, revision);
      var t := Written(u, documents, passages, receipt);
      && ReadDocuments(t) == documents && ReadPassages(t) == passages
      && ReadReceipt(u, t) == if AllFoldAlike(u, documents) then Some(receipt) else None
  {
    hide AllPassages, PutDocuments, PutPassages, ReadDocuments, ReadPassages, ContentDigest, FoldsAgree, AllFoldAlike, KeyLess;
    hide AllNormalized, PassageBefore;
    var passages := AllPassages(u, documents, chunks);
    var receipt := ReceiptOf(u, documents, chunks, generation, revision);
    var t := Written(u, documents, passages, receipt);
    PassageIdsDistinct(u, documents, chunks);
    PassagesInOrder(u, documents, chunks);
    ChildTablesOf(u, documents);
    DocumentRowsOf(u, documents);
    PassageRowsOf(PutDocuments(u, documents), passages);
    DocumentsReadBack(u, documents, t);
    PassagesReadBack(t, passages);
    FoldsAgreeIffAlike(u, documents, t);
  }

  /** _write_candidate and the verification of build_candidate succeed exactly on text without carriage returns. */
  lemma ReadsBackIffNoReturn(u: Unicode, documents: seq<Document>, chunks: string, generation: nat, revision: nat)
    requires KeepsReturns(u) && DistinctVersions(documents) && Sorted(documents, DocumentKey)
    requires AllNormalized(u, AllPassages(u, documents, chunks))
    ensures var receipt := ReceiptOf(u, documents, chunks, generation, revision);
      ReadReceipt(u, Written(u, documents, AllPassages(u, documents, chunks), receipt)) == Some(receipt)
      <==> forall i :: 0 <= i < |documents| ==> HasNoReturn(documents[i])
  {
    hide KeepsReturns, ReadReceipt, Written, ReceiptOf, AllPassages, AllNormalized, FoldsAlike, HasNoReturn;
    WrittenReadsBack(u, documents, chunks, generation, revision);
    forall i | 0 <= i < |documents|
      ensures FoldsAlike(u, documents[i]) <==> HasNoReturn(documents[i])
    {
      AlikeIffNoReturn(u, documents[i]);
    }
  }
}
