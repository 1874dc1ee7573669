/** The documents of an index, in the order in which build_candidate writes them. */
module IndexContent {
  import opened Base
  import opened CatalogSchema
  import opened Ordering
  import opened IndexDocuments

  /** ORDER BY paper_id, paper_version_id, version_observation_id. */
  function DocumentKey(d: Document): SortKey {
    [Number(d.paper), Number(d.version), Number(d.observation)]
  }

  function DocumentSet(documents: seq<Document>): set<Document> {
    set d | d in documents
  }

  ghost predicate Sortable(documents: seq<Document>) {
    Injective(DocumentSet(documents), DocumentKey)
  }

  /** The order in which build_candidate writes the documents of a request. */
  function Arranged(documents: seq<Document>): seq<Document>
    requires Sortable(documents)
  {
    OrderedList(DocumentSet(documents), DocumentKey)
  }

  lemma ListingIsSortable(c: Content)
    requires Listable(c)
    ensures Sortable(Documents(c)) && Distinct(Documents(c))
  {
    hide Listable, DocumentOf, VersionRows;
    var documents := Documents(c);
    forall i, j | 0 <= i < |documents| && 0 <= j < |documents| && DocumentKey(documents[i]) == DocumentKey(documents[j])
      ensures i == j
    {
      assert DocumentKey(documents[i])[1] == DocumentKey(documents[j])[1];
      DocumentShowsRow(c, i);
      DocumentShowsRow(c, j);
      RowsDiffer(c.corpus, i, j);
    }
  }

  lemma {:induction false} SameMembersSameBag<T>(s: seq<T>, t: seq<T>)
    requires Distinct(s) && Distinct(t) && forall x :: x in s <==> x in t
    ensures multiset(s) == multiset(t)
  {
    forall x
      ensures multiset(s)[x] == multiset(t)[x]
    {
      DistinctCounts(s, x);
      DistinctCounts(t, x);
    }
  }

  lemma {:induction false} DistinctCounts<T>(s: seq<T>, x: T)
    requires Distinct(s)
    ensures multiset(s)[x] == if x in s then 1 else 0
  {
    if s != [] {
      assert s == [s[0]] + s[1..];
      DistinctCounts(s[1..], x);
      assert s[0] !in s[1..];
    }
  }

  /** Arranging a listing loses and repeats nothing. */
  lemma ArrangedIsPermutation(c: Content)
    requires Listable(c)
    ensures Sortable(Documents(c))
    ensures multiset(Arranged(Documents(c))) == multiset(Documents(c))
    ensures Sorted(Arranged(Documents(c)), DocumentKey)
  {
    hide Listable, Documents;
    ListingIsSortable(c);
    OrderedListIsOrdered(DocumentSet(Documents(c)), DocumentKey);
    OrderedRowsDistinct(DocumentSet(Documents(c)), DocumentKey);
    SameMembersSameBag(Arranged(Documents(c)), Documents(c));
  }
}
