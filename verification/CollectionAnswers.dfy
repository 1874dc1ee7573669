/** Timestamps, answers and errors of the collection commands. */
module CollectionAnswers {
  import opened Base
  import opened CatalogSchema
  import opened CatalogSpec
  import opened CatalogInvariant
  import opened CatalogHistory
  import opened Collections

  // ---- timestamps

  /** None if the paper is not a member. */
  function NoteOf(shelf: Shelf, m: MemberKey): Option<Option<string>> {
    if m in shelf.members then Some(shelf.members[m].note) else None
  }

  /** The title of a collection, one of its notes or its members differ. */
  ghost predicate Differs(before: Shelf, after: Shelf, id: Id)
    requires id in before.collections && id in after.collections
  {
    || before.collections[id].title != after.collections[id].title
    || exists m: MemberKey :: m.collection == id && NoteOf(before, m) != NoteOf(after, m)
  }

  /** updated_at is the time of the last difference; created_at and added_at never move. */
  ghost predicate Stamped(before: Shelf, after: Shelf, now: Time) {
    && before.collections.Keys <= after.collections.Keys
    && (forall id :: id in before.collections ==>
          && after.collections[id].slug == before.collections[id].slug
          && after.collections[id].createdAt == before.collections[id].createdAt
          && after.collections[id].updatedAt == (if Differs(before, after, id) then now else before.collections[id].updatedAt))
    && (forall id :: id in after.collections && id !in before.collections ==>
          after.collections[id].createdAt == now && after.collections[id].updatedAt == now)
    && (forall m :: m in after.members ==>
          after.members[m].addedAt == (if m in before.members then before.members[m].addedAt else now))
  }

  lemma NothingStamped(shelf: Shelf, now: Time)
    ensures Stamped(shelf, shelf, now)
  {
  }

  lemma MemberStamps(before: Shelf, after: Shelf, id: Id, m: MemberKey, now: Time)
    requires id in before.collections && m.collection == id && NoteOf(before, m) != NoteOf(after, m)
    requires after.collections == Touch(before, id, now).collections
    requires forall o :: o != m ==> NoteOf(before, o) == NoteOf(after, o)
    requires forall o :: o in after.members ==>
      after.members[o].addedAt == (if o in before.members then before.members[o].addedAt else now)
    ensures Stamped(before, after, now)
  {
    hide NoteOf;
    assert Differs(before, after, id);
    forall k | k in before.collections && k != id
      ensures !Differs(before, after, k)
    {
    }
  }

  lemma AddStamps(c: Content, n: Id, id: Id, s: Selector, note: Option<string>, now: Time)
    requires IdentifiersResolve(c.corpus)
    ensures var r := AddMember(c, id, s, note, n, now); r.Done? ==> Stamped(c.shelf, r.content.shelf, now)
  {
    hide ResolvePaper, IdentifiersResolve, MemberCount, Stamped;
    NothingStamped(c.shelf, now);
    var r := AddMember(c, id, s, note, n, now);
    if r.Done? && r.content != c {
      MemberStamps(c.shelf, r.content.shelf, id, MemberKey(id, ResolvePaper(c.corpus, s).paper), now);
    }
  }

  lemma RemoveStamps(c: Content, n: Id, id: Id, s: Selector, now: Time)
    requires IdentifiersResolve(c.corpus)
    ensures var r := RemoveMember(c, id, s, n, now); r.Done? ==> Stamped(c.shelf, r.content.shelf, now)
  {
    hide ResolvePaper, IdentifiersResolve, MemberCount, Stamped;
    NothingStamped(c.shelf, now);
    var r := RemoveMember(c, id, s, n, now);
    if r.Done? && r.content != c {
      MemberStamps(c.shelf, r.content.shelf, id, MemberKey(id, ResolvePaper(c.corpus, s).paper), now);
    }
  }

  lemma LabelStamps(c: Content, n: Id, id: Id, slug: string, title: string, now: Time)
    requires n !in c.shelf.collections
    ensures var r := CreateCollection(c, slug, title, n, now); r.Done? ==> Stamped(c.shelf, r.content.shelf, now)
    ensures var r := RenameCollection(c, id, title, n, now); r.Done? ==> Stamped(c.shelf, r.content.shelf, now)
  {
    hide View;
  }

  /** Every collection command stamps exactly the collections that it changes and the members that it adds. */
  lemma CommandStamps(c: Content, n: Id, call: Call)
    requires Inv(c, n) && ValidOp(call.op) && IsCollectionOp(call.op)
    ensures var r := Apply(c, n, call); r.Done? ==> Stamped(c.shelf, r.content.shelf, call.now)
  {
    hide Inv, CreateCollection, RenameCollection, AddMember, RemoveMember, Resolves, IdentifiersResolve, Stamped;
    InvResolves(c, n);
    NextIsFresh(c, n);
    match call.op
    case Create(slug, title) => LabelStamps(c, n, 0, slug, title, call.now);
    case Rename(id, title) => LabelStamps(c, n, id, "", title, call.now);
    case Add(id, s, note) => AddStamps(c, n, id, s, note, call.now);
    case Remove(id, s) => RemoveStamps(c, n, id, s, call.now);
  }

  // ---- answers and errors

  /** The view shows the stored row of the collection and the number of its members. */
  ghost predicate Views(shelf: Shelf, id: Id, v: CollectionView) {
    && v.collection == id && id in shelf.collections && v.row == shelf.collections[id]
    && v.paperCount == |set m | m in shelf.members && m.collection == id|
  }

  /** Creating answers the view of the new collection, and raises exactly for a taken slug. */
  lemma CreateAnswers(c: Content, slug: string, title: string, n: Id, now: Time)
    requires Inv(c, n)
    ensures var r := CreateCollection(c, slug, title, n, now);
      && (r == Raised(IntegrityViolation) <==> exists k :: k in c.shelf.collections && c.shelf.collections[k].slug == slug)
      && (r.Raised? ==> r.error == IntegrityViolation)
      && (r.Done? ==>
            && Views(r.content.shelf, n, r.value) && r.value.row.slug == slug && r.value.row.title == title
            && n !in c.shelf.collections && r.next == n + 1)
  {
    hide BlobsOk, CorpusOk, IngestOk, Conserved, FreshCorpus;
    assert Below(c.shelf.collections, n);
    var r := CreateCollection(c, slug, title, n, now);
    if r.Done? {
      assert (set m | m in r.content.shelf.members && m.collection == n) == {};
    }
  }

  /** Renaming answers the view of the collection, and raises exactly for an unknown one. */
  lemma RenameAnswers(c: Content, id: Id, title: string, n: Id, now: Time)
    ensures var r := RenameCollection(c, id, title, n, now);
      && (r == Raised(NotFound) <==> id !in c.shelf.collections) && (r.Raised? ==> r.error == NotFound)
      && (r.Done? ==> Views(r.content.shelf, id, r.value) && r.value.row.title == title)
  {
  }

  /** Adding and removing answer the view of the collection; an unknown collection or paper is not found, and an
      ambiguous identifier is a conflict. */
  lemma MemberAnswers(c: Content, id: Id, s: Selector, note: Option<string>, n: Id, now: Time)
    requires IdentifiersResolve(c.corpus)
    ensures var r := AddMember(c, id, s, note, n, now);
      && (r == Raised(NotFound) <==> id !in c.shelf.collections || ResolvePaper(c.corpus, s) == Missing)
      && (r == Raised(CatalogConflict) <==> id in c.shelf.collections && ResolvePaper(c.corpus, s) == Ambiguous)
      && (r.Raised? ==> r.error in {NotFound, CatalogConflict})
      && (r.Done? ==> Views(r.content.shelf, id, r.value))
    ensures var r := RemoveMember(c, id, s, n, now);
      && (r == Raised(NotFound) <==> id !in c.shelf.collections || ResolvePaper(c.corpus, s) == Missing)
      && (r == Raised(CatalogConflict) <==> id in c.shelf.collections && ResolvePaper(c.corpus, s) == Ambiguous)
      && (r.Raised? ==> r.error in {NotFound, CatalogConflict})
      && (r.Done? ==> Views(r.content.shelf, id, r.value))
  {
    hide ResolvePaper;
  }
}
