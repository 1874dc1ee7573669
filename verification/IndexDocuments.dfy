/** list_index_documents: one document per paper and source, and when it raises. */
module IndexDocuments {
  import opened Base
  import opened CatalogSchema
  import opened CatalogSpec
  import opened CatalogInvariant
  import opened Ordering

  datatype Result<+T> = Ok(value: T) | Raises

  datatype SearchIdentifier = SearchIdentifier(key: Key, scope: Scope)

  datatype Membership = Membership(collection: Id, slug: string)

  datatype Document = Document(
    paper: Id, version: Id, observation: Id, source: SourceId, title: string, abstractText: Option<string>,
    artifact: Sha256, authors: seq<string>, categories: seq<string>, language: Option<string>,
    submittedAt: Option<Time>, collections: seq<Membership>, identifiers: seq<SearchIdentifier>)

  // ---- the queries

  function CurrentVersions(x: Corpus): set<Id> {
    set v | v in x.versions && x.versions[v].isCurrent
  }

  function VersionKey(x: Corpus): Id -> SortKey {
    v => if v in x.versions then [Number(x.versions[v].paper), Text(x.versions[v].source), Number(v)]
         else [Number(v)]
  }

  lemma VersionKeyInjective(x: Corpus)
    ensures Injective(CurrentVersions(x), VersionKey(x))
  {
  }

  /** ORDER BY paper_id, source_id, id. */
  function VersionRows(x: Corpus): seq<Id> {
    VersionKeyInjective(x);
    OrderedList(CurrentVersions(x), VersionKey(x))
  }

  function ObservationsOf(x: Corpus, version: Id): set<Id> {
    set o | o in x.observations && x.observations[o].version == version
  }

  function NewestFirst(x: Corpus): Id -> SortKey {
    o => if o in x.observations then [Number(0 - x.observations[o].observedAt as int), Number(0 - o as int)]
         else [Number(0 - o as int)]
  }

  lemma NewestFirstInjective(x: Corpus, version: Id)
    ensures Injective(ObservationsOf(x, version), NewestFirst(x))
  {
    forall a, b | a in ObservationsOf(x, version) && b in ObservationsOf(x, version)
                  && NewestFirst(x)(a) == NewestFirst(x)(b)
      ensures a == b
    {
      assert NewestFirst(x)(a)[1] == NewestFirst(x)(b)[1];
    }
  }

  lemma TwoColumns(a: SortKey, b: SortKey)
    requires |a| == |b| == 2
    ensures KeyLess(a, b) <==> if a[0] != b[0] then ColumnLess(a[0], b[0]) else a[1] != b[1] && ColumnLess(a[1], b[1])
  {
    assert a[1..] == [a[1]] && b[1..] == [b[1]];
    assert KeyLess([a[1]], [b[1]]) <==> a[1] != b[1] && ColumnLess(a[1], b[1]) by {
      assert [a[1]][1..] == [] && [b[1]][1..] == [];
    }
  }

  /** p is no newer than o: observed earlier, or at the same time with a smaller id. */
  predicate NoNewer(x: Corpus, p: Id, o: Id)
    requires p in x.observations && o in x.observations
  {
    var s, t := x.observations[p].observedAt, x.observations[o].observedAt;
    s < t || (s == t && p <= o)
  }

  /** ORDER BY observed_at DESC, id DESC LIMIT 1. */
  function NewestObservation(x: Corpus, version: Id): (o: Id)
    requires ObservationsOf(x, version) != {}
    ensures o in x.observations && x.observations[o].version == version
    ensures forall p :: p in ObservationsOf(x, version) ==> NoNewer(x, p, o)
  {
    NewestFirstInjective(x, version);
    var o := First(ObservationsOf(x, version), NewestFirst(x));
    FirstIsNewest(x, version, o);
    o
  }

  lemma FirstIsNewest(x: Corpus, version: Id, o: Id)
    requires IsFirst(ObservationsOf(x, version), NewestFirst(x), o)
    ensures forall p :: p in ObservationsOf(x, version) ==> NoNewer(x, p, o)
  {
    hide KeyLess;
    forall p | p in ObservationsOf(x, version)
      ensures NoNewer(x, p, o)
    {
      if p != o {
        TwoColumns(NewestFirst(x)(o), NewestFirst(x)(p));
      }
    }
  }

  function SearchIdentifiers(x: Corpus, paper: Id, version: Id): set<SearchIdentifier> {
    (set k | k in x.paperIds && x.paperIds[k] == paper :: SearchIdentifier(k, PaperScope)) +
    (set k | k in x.versionIds && x.versionIds[k] == version :: SearchIdentifier(k, VersionScope))
  }

  function IdentifierKey(i: SearchIdentifier): SortKey {
    [Number(if i.scope == PaperScope then 0 else 1), Text(i.key.scheme), Text(i.key.value)]
  }

  lemma IdentifierKeyInjective(rows: set<SearchIdentifier>)
    ensures Injective(rows, IdentifierKey)
  {
    forall a, b | a in rows && b in rows && IdentifierKey(a) == IdentifierKey(b)
      ensures a == b
    {
      assert IdentifierKey(a)[0] == IdentifierKey(b)[0] && IdentifierKey(a)[1] == IdentifierKey(b)[1];
      assert IdentifierKey(a)[2] == IdentifierKey(b)[2];
    }
  }

  /** ORDER BY scope_order, scheme, canonical_value. */
  function IdentifierRows(x: Corpus, paper: Id, version: Id): seq<SearchIdentifier> {
    IdentifierKeyInjective(SearchIdentifiers(x, paper, version));
    OrderedList(SearchIdentifiers(x, paper, version), IdentifierKey)
  }

  function Memberships(shelf: Shelf, paper: Id): set<Membership>
    requires forall m :: m in shelf.members ==> m.collection in shelf.collections
  {
    set m | m in shelf.members && m.paper == paper :: Membership(m.collection, shelf.collections[m.collection].slug)
  }

  function MembershipKey(m: Membership): SortKey {
    [Text(m.slug), Number(m.collection)]
  }

  lemma MembershipKeyInjective(rows: set<Membership>)
    ensures Injective(rows, MembershipKey)
  {
    forall a, b | a in rows && b in rows && MembershipKey(a) == MembershipKey(b)
      ensures a == b
    {
      assert MembershipKey(a)[0] == MembershipKey(b)[0] && MembershipKey(a)[1] == MembershipKey(b)[1];
    }
  }

  /** ORDER BY slug, id. */
  function MembershipRows(shelf: Shelf, paper: Id): seq<Membership>
    requires forall m :: m in shelf.members ==> m.collection in shelf.collections
  {
    MembershipKeyInjective(Memberships(shelf, paper));
    OrderedList(Memberships(shelf, paper), MembershipKey)
  }

  function Names(rows: seq<AuthorRow>): seq<string> {
    seq(|rows|, i requires 0 <= i < |rows| => rows[i].name.rawName)
  }

  function Values(rows: seq<Category>): seq<string> {
    seq(|rows|, i requires 0 <= i < |rows| => rows[i].value)
  }

  // ---- one document

  /** The tables are complete enough for every query of the listing to find its row. */
  ghost predicate Listable(c: Content) {
    && (forall v :: v in c.corpus.versions ==> ObservationsOf(c.corpus, v) != {})
    && c.corpus.authors.Keys == c.corpus.observations.Keys && c.corpus.categories.Keys == c.corpus.observations.Keys
    && (forall m :: m in c.shelf.members ==> m.collection in c.shelf.collections)
  }

  lemma InvIsListable(c: Content, n: Id)
    requires Inv(c, n)
    ensures Listable(c)
  {
    hide IngestOk, BlobsOk, Conserved, FreshFrom, VersionsOk, CurrentOk, ObservationsOk, ArtifactsOk, IdentifiersOk;
    forall v | v in c.corpus.versions
      ensures ObservationsOf(c.corpus, v) != {}
    {
      assert IsObserved(c.corpus.observations, v);
      var x :| x in c.corpus.observations && c.corpus.observations[x].version == v;
      assert x in ObservationsOf(c.corpus, v);
    }
  }

  /** The row of the listing for one current version. */
  function DocumentOf(c: Content, v: Id): Document
    requires Listable(c) && v in c.corpus.versions
  {
    var row := c.corpus.versions[v];
    var x := NewestObservation(c.corpus, v);
    var o := c.corpus.observations[x];
    assert x in c.corpus.authors.Keys && x in c.corpus.categories.Keys;
    Document(
      row.paper, v, x, row.source, o.metadata.title, o.metadata.abstractText, o.sha,
      Names(c.corpus.authors[x]), Values(c.corpus.categories[x]), o.metadata.language, o.metadata.submittedAt,
      MembershipRows(c.shelf, row.paper), IdentifierRows(c.corpus, row.paper, v))
  }

  predicate NoneBlank(values: seq<string>) {
    forall i | 0 <= i < |values| :: !Blank(values[i])
  }

  /** The constructor checks of IndexDocument. */
  predicate Accepted(d: Document) {
    && !Blank(d.title) && NoneBlank(d.authors) && NoneBlank(d.categories) && Distinct(d.categories)
    && (d.language.Some? ==> !Blank(d.language.value))
    && (forall i, j | 0 <= i < j < |d.collections| ::
          d.collections[i].collection != d.collections[j].collection && d.collections[i].slug != d.collections[j].slug)
    && (forall i | 0 <= i < |d.collections| :: !Blank(d.collections[i].slug) && !UuidShaped(d.collections[i].slug))
    && Distinct(d.identifiers)
  }

  /** The newest observation of a version has no text that the catalog stores and the index refuses: a blank
      author, category or language. */
  predicate Indexable(x: Corpus, v: Id) {
    ObservationsOf(x, v) != {} &&
    var o := NewestObservation(x, v);
    && o in x.authors && o in x.categories
    && NoneBlank(Names(x.authors[o])) && NoneBlank(Values(x.categories[o]))
    && (x.observations[o].metadata.language.Some? ==> !Blank(x.observations[o].metadata.language.value))
  }

  lemma OrderedRowsDistinct<T(!new)>(rows: set<T>, key: T -> SortKey)
    requires Injective(rows, key)
    ensures Distinct(OrderedList(rows, key)) && forall x :: x in OrderedList(rows, key) <==> x in rows
  {
    OrderedListIsOrdered(rows, key);
    var s := OrderedList(rows, key);
    forall i, j | 0 <= i < j < |s|
      ensures s[i] != s[j]
    {
      KeyAsymmetric(key(s[i]), key(s[j]));
    }
  }

  lemma CollectionsAccepted(c: Content, paper: Id)
    requires ShelfOk(c.corpus.papers, c.shelf)
    ensures var rows := MembershipRows(c.shelf, paper);
      && (forall i, j | 0 <= i < j < |rows| :: rows[i].collection != rows[j].collection && rows[i].slug != rows[j].slug)
      && (forall i | 0 <= i < |rows| :: !Blank(rows[i].slug) && !UuidShaped(rows[i].slug))
  {
    hide UuidShaped, OrderedList;
    MembershipKeyInjective(Memberships(c.shelf, paper));
    OrderedRowsDistinct(Memberships(c.shelf, paper), MembershipKey);
    var rows := MembershipRows(c.shelf, paper);
    forall i | 0 <= i < |rows|
      ensures rows[i].collection in c.shelf.collections && rows[i].slug == c.shelf.collections[rows[i].collection].slug
      ensures !Blank(rows[i].slug) && !UuidShaped(rows[i].slug)
    {
      assert rows[i] in Memberships(c.shelf, paper);
      assert ValidSlug(rows[i].slug);
      assert !IsSpace(rows[i].slug[0]);
    }
    forall i, j | 0 <= i < j < |rows|
      ensures rows[i].collection != rows[j].collection && rows[i].slug != rows[j].slug
    {
      assert rows[i] != rows[j];
    }
  }

  /** IndexDocument accepts the row of a version exactly when its newest observation is indexable. */
  lemma AcceptedIffIndexable(c: Content, n: Id, v: Id)
    requires Inv(c, n) && Listable(c) && v in c.corpus.versions
    ensures Accepted(DocumentOf(c, v)) <==> Indexable(c.corpus, v)
  {
    hide IngestOk, BlobsOk, Conserved, FreshFrom, VersionsOk, CurrentOk, ArtifactsOk, IdentifiersOk, ShelfOk;
    hide EveryVersionObserved, Listable, MembershipRows, IdentifierRows, NewestObservation, Names, NoNewer;
    ListableRows(c, v);
    var x := NewestObservation(c.corpus, v);
    CollectionsAccepted(c, c.corpus.versions[v].paper);
    IdentifiersAccepted(c.corpus, c.corpus.versions[v].paper, v);
    CategoriesAccepted(c.corpus.categories[x]);
  }

  lemma ListableRows(c: Content, v: Id)
    requires Listable(c) && v in c.corpus.versions
    ensures ObservationsOf(c.corpus, v) != {}
    ensures NewestObservation(c.corpus, v) in c.corpus.authors && NewestObservation(c.corpus, v) in c.corpus.categories
    ensures forall m :: m in c.shelf.members ==> m.collection in c.shelf.collections
  {
    var x := NewestObservation(c.corpus, v);
    assert x in c.corpus.authors.Keys && x in c.corpus.categories.Keys;
  }

  lemma IdentifiersAccepted(x: Corpus, paper: Id, version: Id)
    ensures Distinct(IdentifierRows(x, paper, version))
  {
    IdentifierKeyInjective(SearchIdentifiers(x, paper, version));
    OrderedRowsDistinct(SearchIdentifiers(x, paper, version), IdentifierKey);
  }

  lemma CategoriesAccepted(categories: seq<Category>)
    requires DistinctValues(categories)
    ensures Distinct(Values(categories))
  {
  }

  // ---- the listing

  /** The documents of the catalog, in the order of the query. */
  function Documents(c: Content): seq<Document>
    requires Listable(c)
  {
    VersionRowsAreCurrent(c.corpus);
    var rows := VersionRows(c.corpus);
    seq(|rows|, i requires 0 <= i < |rows| => DocumentOf(c, rows[i]))
  }

  lemma VersionRowsAreCurrent(x: Corpus)
    ensures Sorted(VersionRows(x), VersionKey(x)) && |VersionRows(x)| == |CurrentVersions(x)|
    ensures forall v :: v in VersionRows(x) <==> v in x.versions && x.versions[v].isCurrent
    ensures forall i | 0 <= i < |VersionRows(x)| :: VersionRows(x)[i] in x.versions
  {
    VersionKeyInjective(x);
    OrderedListIsOrdered(CurrentVersions(x), VersionKey(x));
    forall i | 0 <= i < |VersionRows(x)|
      ensures VersionRows(x)[i] in x.versions
    {
      assert VersionRows(x)[i] in VersionRows(x);
    }
  }

  ghost predicate AllAccepted(c: Content)
    requires Listable(c)
  {
    forall v :: v in c.corpus.versions && c.corpus.versions[v].isCurrent ==> Accepted(DocumentOf(c, v))
  }

  ghost predicate AllIndexable(x: Corpus) {
    forall v :: v in x.versions && x.versions[v].isCurrent ==> Indexable(x, v)
  }

  // ---- what a listing shows, field by field

  /** The slug, then the collection id. */
  predicate MembershipBefore(a: Membership, b: Membership) {
    TextLess(a.slug, b.slug) || (a.slug == b.slug && a.collection < b.collection)
  }

  /** Paper identifiers first, then the scheme, then the value. */
  predicate IdentifierBefore(a: SearchIdentifier, b: SearchIdentifier) {
    || (a.scope == PaperScope && b.scope == VersionScope)
    || (a.scope == b.scope && TextLess(a.key.scheme, b.key.scheme))
    || (a.scope == b.scope && a.key.scheme == b.key.scheme && TextLess(a.key.value, b.key.value))
  }

  /** The paper, then the source, then the version. */
  predicate DocumentBefore(a: Document, b: Document) {
    || a.paper < b.paper
    || (a.paper == b.paper && TextLess(a.source, b.source))
    || (a.paper == b.paper && a.source == b.source && a.version < b.version)
  }

  ghost predicate ShowsObservation(x: Corpus, d: Document) {
    && d.observation in x.observations && d.observation in x.authors && d.observation in x.categories
    && var row, authors, categories := x.observations[d.observation], x.authors[d.observation], x.categories[d.observation];
    && row.version == d.version && d.artifact == row.sha
    && d.title == row.metadata.title && d.abstractText == row.metadata.abstractText
    && d.language == row.metadata.language && d.submittedAt == row.metadata.submittedAt
    && |d.authors| == |authors| && (forall i | 0 <= i < |authors| :: d.authors[i] == authors[i].name.rawName)
    && |d.categories| == |categories| && (forall i | 0 <= i < |categories| :: d.categories[i] == categories[i].value)
  }

  ghost predicate IsMember(shelf: Shelf, paper: Id, m: Membership) {
    && MemberKey(m.collection, paper) in shelf.members
    && m.collection in shelf.collections && shelf.collections[m.collection].slug == m.slug
  }

  ghost predicate ShowsMemberships(shelf: Shelf, d: Document) {
    && (forall m :: m in d.collections <==> IsMember(shelf, d.paper, m))
    && (forall i, j | 0 <= i < j < |d.collections| :: MembershipBefore(d.collections[i], d.collections[j]))
  }

  ghost predicate IsIdentifierOf(x: Corpus, d: Document, s: SearchIdentifier) {
    match s.scope
    case PaperScope => s.key in x.paperIds && x.paperIds[s.key] == d.paper
    case VersionScope => s.key in x.versionIds && x.versionIds[s.key] == d.version
  }

  ghost predicate ShowsIdentifiers(x: Corpus, d: Document) {
    && (forall s :: s in d.identifiers <==> IsIdentifierOf(x, d, s))
    && (forall i, j | 0 <= i < j < |d.identifiers| :: IdentifierBefore(d.identifiers[i], d.identifiers[j]))
  }

  /** Every field of a document comes from the rows of its observation, its collections and its identifiers. */
  ghost predicate Describes(c: Content, d: Document) {
    ShowsObservation(c.corpus, d) && ShowsMemberships(c.shelf, d) && ShowsIdentifiers(c.corpus, d)
  }

  ghost predicate ShowsVersion(x: Corpus, d: Document) {
    && d.version in x.versions && x.versions[d.version].isCurrent
    && d.paper == x.versions[d.version].paper && d.source == x.versions[d.version].source
  }

  /** The current versions, each once, in the order of the query, each with its newest observation and every field
      from the rows. */
  ghost predicate IsListing(c: Content, documents: seq<Document>) {
    && (forall i | 0 <= i < |documents| ::
          ShowsVersion(c.corpus, documents[i]) && ShowsNewest(c.corpus, documents[i]) && Describes(c, documents[i]))
    && (forall v :: v in c.corpus.versions && c.corpus.versions[v].isCurrent ==>
          exists i :: 0 <= i < |documents| && documents[i].version == v)
    && (forall i, j | 0 <= i < j < |documents| :: DocumentBefore(documents[i], documents[j]))
  }

  lemma MembershipsAreShown(shelf: Shelf, paper: Id)
    requires forall m :: m in shelf.members ==> m.collection in shelf.collections
    ensures var rows := MembershipRows(shelf, paper);
      && (forall m :: m in rows <==> IsMember(shelf, paper, m))
      && (forall i, j | 0 <= i < j < |rows| :: MembershipBefore(rows[i], rows[j]))
  {
    hide KeyLess, OrderedList;
    MembershipKeyInjective(Memberships(shelf, paper));
    OrderedListIsOrdered(Memberships(shelf, paper), MembershipKey);
    var rows := MembershipRows(shelf, paper);
    forall i, j | 0 <= i < j < |rows|
      ensures MembershipBefore(rows[i], rows[j])
    {
      TwoColumns(MembershipKey(rows[i]), MembershipKey(rows[j]));
    }
    forall m
      ensures m in Memberships(shelf, paper) <==> IsMember(shelf, paper, m)
    {
      if IsMember(shelf, paper, m) {
        assert MemberKey(m.collection, paper) in shelf.members;
      }
    }
  }

  lemma ThreeColumns(a: SortKey, b: SortKey)
    requires |a| == |b| == 3
    ensures KeyLess(a, b) <==>
              if a[0] != b[0] then ColumnLess(a[0], b[0])
              else if a[1] != b[1] then ColumnLess(a[1], b[1])
              else a[2] != b[2] && ColumnLess(a[2], b[2])
  {
    TwoColumns(a[1..], b[1..]);
  }

  lemma IdentifiersAreShown(x: Corpus, paper: Id, version: Id)
    ensures var rows := IdentifierRows(x, paper, version);
      && (forall s :: s in rows <==>
            match s.scope
            case PaperScope => s.key in x.paperIds && x.paperIds[s.key] == paper
            case VersionScope => s.key in x.versionIds && x.versionIds[s.key] == version)
      && (forall i, j | 0 <= i < j < |rows| :: IdentifierBefore(rows[i], rows[j]))
  {
    hide KeyLess, OrderedList, SearchIdentifiers, IdentifierKey, IdentifierBefore;
    var all := SearchIdentifiers(x, paper, version);
    IdentifierKeyInjective(all);
    OrderedListIsOrdered(all, IdentifierKey);
    var rows := IdentifierRows(x, paper, version);
    forall i, j | 0 <= i < j < |rows|
      ensures IdentifierBefore(rows[i], rows[j])
    {
      IdentifierOrder(rows[i], rows[j]);
    }
    forall s
      ensures s in all <==>
                match s.scope
                case PaperScope => s.key in x.paperIds && x.paperIds[s.key] == paper
                case VersionScope => s.key in x.versionIds && x.versionIds[s.key] == version
    {
      IdentifierSearched(x, paper, version, s);
    }
  }

  lemma IdentifierOrder(a: SearchIdentifier, b: SearchIdentifier)
    requires KeyLess(IdentifierKey(a), IdentifierKey(b))
    ensures IdentifierBefore(a, b)
  {
    hide KeyLess;
    ThreeColumns(IdentifierKey(a), IdentifierKey(b));
  }

  lemma IdentifierSearched(x: Corpus, paper: Id, version: Id, s: SearchIdentifier)
    ensures s in SearchIdentifiers(x, paper, version) <==>
              match s.scope
              case PaperScope => s.key in x.paperIds && x.paperIds[s.key] == paper
              case VersionScope => s.key in x.versionIds && x.versionIds[s.key] == version
  {
    assert s == SearchIdentifier(s.key, s.scope);
  }

  lemma DocumentDescribes(c: Content, v: Id)
    requires Listable(c) && v in c.corpus.versions
    ensures Describes(c, DocumentOf(c, v))
  {
    hide MembershipRows, IdentifierRows, NoNewer, Listable, IsMember, MembershipBefore, IdentifierBefore;
    ListableRows(c, v);
    MembershipsAreShown(c.shelf, c.corpus.versions[v].paper);
    IdentifiersAreShown(c.corpus, c.corpus.versions[v].paper, v);
  }

  lemma RowsInOrder(x: Corpus, i: nat, j: nat)
    requires i < j < |VersionRows(x)|
    ensures var v, w := VersionRows(x)[i], VersionRows(x)[j];
      && v in x.versions && w in x.versions
      && var a, b := x.versions[v], x.versions[w];
      || a.paper < b.paper || (a.paper == b.paper && TextLess(a.source, b.source))
      || (a.paper == b.paper && a.source == b.source && v < w)
  {
    hide KeyLess, VersionRows;
    VersionRowsAreCurrent(x);
    ThreeColumns(VersionKey(x)(VersionRows(x)[i]), VersionKey(x)(VersionRows(x)[j]));
  }

  lemma DocumentsAreListing(c: Content)
    requires Listable(c)
    ensures IsListing(c, Documents(c))
  {
    hide Listable, VersionRows, DocumentOf, Documents, Describes, ShowsNewest;
    VersionRowsAreCurrent(c.corpus);
    var rows := VersionRows(c.corpus);
    var documents := Documents(c);
    DocumentCount(c);
    forall i | 0 <= i < |documents|
      ensures ShowsVersion(c.corpus, documents[i]) && ShowsNewest(c.corpus, documents[i]) && Describes(c, documents[i])
    {
      DocumentShowsRow(c, i);
      DocumentShowsNewest(c, rows[i]);
      DocumentDescribes(c, rows[i]);
    }
    forall v | v in c.corpus.versions && c.corpus.versions[v].isCurrent
      ensures exists i :: 0 <= i < |documents| && documents[i].version == v
    {
      assert v in rows;
      var i :| 0 <= i < |rows| && rows[i] == v;
      DocumentShowsRow(c, i);
    }
    forall i, j | 0 <= i < j < |documents|
      ensures DocumentBefore(documents[i], documents[j])
    {
      DocumentShowsRow(c, i);
      DocumentShowsRow(c, j);
      RowsInOrder(c.corpus, i, j);
    }
  }

  lemma DocumentCount(c: Content)
    requires Listable(c)
    ensures |Documents(c)| == |VersionRows(c.corpus)|
  {
    hide VersionRows, DocumentOf, Listable;
  }

  /** The loop of list_index_documents: it stops at the first row that IndexDocument refuses. */
  method ListIndexDocuments(c: Content) returns (r: Result<seq<Document>>)
    requires Listable(c)
    ensures r.Ok? <==> AllAccepted(c)
    ensures r.Ok? ==> r.value == Documents(c) && IsListing(c, r.value)
  {
    hide Listable, DocumentOf, Accepted, VersionRows, IsListing;
    DocumentsAreListing(c);
    VersionRowsAreCurrent(c.corpus);
    var rows := VersionRows(c.corpus);
    var documents: seq<Document> := [];
    for i := 0 to |rows|
      invariant |documents| == i
      invariant forall j | 0 <= j < i :: documents[j] == DocumentOf(c, rows[j]) && Accepted(documents[j])
    {
      assert rows[i] in VersionRows(c.corpus);
      var document := DocumentOf(c, rows[i]);
      if !Accepted(document) {
        return Raises;
      }
      documents := documents + [document];
    }
    return Ok(documents);
  }

  /** It never raises on a missing observation or artifact; it raises exactly when the newest observation of
      some current version has a blank author, category or language. */
  lemma ListingRaisesIffNotIndexable(c: Content, n: Id)
    requires Inv(c, n)
    ensures Listable(c) && (AllAccepted(c) <==> AllIndexable(c.corpus))
  {
    hide Inv, Listable, DocumentOf, Accepted, Indexable;
    InvIsListable(c, n);
    forall v | v in c.corpus.versions
      ensures Accepted(DocumentOf(c, v)) <==> Indexable(c.corpus, v)
    {
      AcceptedIffIndexable(c, n, v);
    }
  }

  /** One artifact row joins an observation, and its blob is the digest the document reports. */
  ghost predicate JoinsOneArtifact(c: Content, d: Document) {
    exists a :: a in c.corpus.artifacts && c.corpus.artifacts[a].observation == d.observation
      && c.corpus.artifacts[a].blob == d.artifact && d.artifact in c.blobs
      && forall b :: b in c.corpus.artifacts && c.corpus.artifacts[b].observation == d.observation ==> b == a
  }

  lemma ListedArtifactExists(c: Content, n: Id, v: Id)
    requires Inv(c, n) && Listable(c) && v in c.corpus.versions
    ensures JoinsOneArtifact(c, DocumentOf(c, v))
  {
    hide IngestOk, BlobsOk, Conserved, FreshFrom, VersionsOk, CurrentOk, IdentifiersOk, ShelfOk, ObservationsOk;
    hide EveryVersionObserved, ChildrenOk, MembershipRows, IdentifierRows, NewestObservation, NoNewer, Listable;
    ListableRows(c, v);
    var x := NewestObservation(c.corpus, v);
    assert HasArtifact(c.corpus.artifacts, x);
    var a :| a in c.corpus.artifacts && c.corpus.artifacts[a].observation == x;
  }

  // ---- one document per paper and source

  function LineOf(versions: map<Id, VersionRow>, v: Id): set<Id>
    requires v in versions
  {
    set w | w in versions && SameLine(versions[w], versions[v])
  }

  lemma {:induction false} GreatestExists(ids: set<Id>)
    requires ids != {}
    ensures exists g :: g in ids && forall x :: x in ids ==> x <= g
    decreases ids
  {
    var x :| x in ids;
    var rest := ids - {x};
    if rest == {} {
      assert ids == {x};
    } else {
      GreatestExists(rest);
      var g :| g in rest && forall y :: y in rest ==> y <= g;
      var m := if x <= g then g else x;
      forall y | y in ids
        ensures y <= m
      {
        assert y == x || y in rest;
      }
      assert m in ids;
    }
  }

  predicate SameDocumentLine(d: Document, e: Document) {
    d.paper == e.paper && d.source == e.source
  }

  /** The document shows an observation of its version that no other is newer than. */
  ghost predicate ShowsNewest(x: Corpus, d: Document) {
    && d.observation in x.observations && x.observations[d.observation].version == d.version
    && d.title == x.observations[d.observation].metadata.title
    && forall p :: p in ObservationsOf(x, d.version) ==> NoNewer(x, p, d.observation)
  }

  /** Document i is the only one of the paper and source of a version, and shows its last created version with the
      newest observation of that. */
  ghost predicate IsTheDocument(c: Content, documents: seq<Document>, i: nat, v: Id)
    requires i < |documents| && v in c.corpus.versions
  {
    && documents[i].paper == c.corpus.versions[v].paper && documents[i].source == c.corpus.versions[v].source
    && documents[i].version in LineOf(c.corpus.versions, v) && ShowsNewest(c.corpus, documents[i])
    && (forall w :: w in LineOf(c.corpus.versions, v) ==> w <= documents[i].version)
    && (forall j :: 0 <= j < |documents| && SameDocumentLine(documents[j], documents[i]) ==> j == i)
  }

  lemma DocumentShowsNewest(c: Content, v: Id)
    requires Listable(c) && v in c.corpus.versions
    ensures ShowsNewest(c.corpus, DocumentOf(c, v))
  {
    hide MembershipRows, IdentifierRows, NoNewer, Listable;
    ListableRows(c, v);
  }

  lemma DocumentShowsRow(c: Content, i: nat)
    requires Listable(c) && i < |VersionRows(c.corpus)|
    ensures |Documents(c)| == |VersionRows(c.corpus)|
    ensures var v := VersionRows(c.corpus)[i]; var d := Documents(c)[i];
      && v in c.corpus.versions && c.corpus.versions[v].isCurrent
      && d == DocumentOf(c, v) && d.version == v
      && d.paper == c.corpus.versions[v].paper && d.source == c.corpus.versions[v].source
  {
    hide Listable, VersionRows, NewestObservation, MembershipRows, IdentifierRows;
    VersionRowsAreCurrent(c.corpus);
    assert VersionRows(c.corpus)[i] in VersionRows(c.corpus);
  }

  lemma LastCreated(versions: map<Id, VersionRow>, v: Id) returns (g: Id)
    requires CurrentOk(versions) && v in versions
    ensures g in LineOf(versions, v) && versions[g].isCurrent
    ensures forall w :: w in LineOf(versions, v) ==> w <= g && (versions[w].isCurrent ==> w == g)
  {
    assert v in LineOf(versions, v);
    GreatestExists(LineOf(versions, v));
    g :| g in LineOf(versions, v) && forall x :: x in LineOf(versions, v) ==> x <= g;
    forall w | w in versions && SameLine(versions[w], versions[g])
      ensures w <= g
    {
      assert w in LineOf(versions, v);
    }
    assert CreatedLast(versions, g);
    forall w | w in LineOf(versions, v) && versions[w].isCurrent
      ensures w == g
    {
      assert CreatedLast(versions, w) && SameLine(versions[g], versions[w]);
    }
  }

  /** Every paper and source with a version has exactly one document, that of its last created version. */
  lemma OneDocumentPerLine(c: Content, n: Id, v: Id) returns (i: nat)
    requires Inv(c, n) && Listable(c) && v in c.corpus.versions
    ensures i < |Documents(c)| && IsTheDocument(c, Documents(c), i, v)
  {
    hide IngestOk, BlobsOk, Conserved, FreshFrom, IdentifiersOk, ShelfOk, ObservationsOk, ArtifactsOk, VersionsOk;
    hide EveryVersionObserved, ChildrenOk, CurrentOk, Listable, VersionRows, Documents, DocumentOf, ShowsNewest;
    var rows := VersionRows(c.corpus);
    var g := LastCreated(c.corpus.versions, v);
    VersionRowsAreCurrent(c.corpus);
    assert g in rows;
    i :| 0 <= i < |rows| && rows[i] == g;
    DocumentShowsRow(c, i);
    DocumentShowsNewest(c, g);
    var documents := Documents(c);
    forall j | 0 <= j < |documents| && SameDocumentLine(documents[j], documents[i])
      ensures j == i
    {
      DocumentShowsRow(c, j);
      assert rows[j] in LineOf(c.corpus.versions, v);
      RowsDiffer(c.corpus, i, j);
    }
    assert IsTheDocument(c, documents, i, v);
  }

  lemma RowsDiffer(x: Corpus, i: nat, j: nat)
    requires i < |VersionRows(x)| && j < |VersionRows(x)| && VersionRows(x)[i] == VersionRows(x)[j]
    ensures i == j
  {
    VersionKeyInjective(x);
    OrderedRowsDistinct(CurrentVersions(x), VersionKey(x));
  }
}
