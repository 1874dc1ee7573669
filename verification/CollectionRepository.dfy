/** SqliteCollectionRepository, statement by statement, and what collections are: a map from collection and paper
    to an optional note. */
module CollectionRepository {
  import opened Base
  import opened CatalogSchema
  import Spec = CatalogSpec
  import opened CatalogSpec
  import opened CatalogInvariant
  import opened RunProofs
  import opened Statements
  import opened UnitOfWork

  // ---- lookups

  /** _resolve_paper. A DOI may sit in both identifier tables; it resolves when they agree. */
  method ResolvePaper(s: Session, selector: Selector) returns (r: Result<Id>)
    requires IdentifiersResolve(s.content.corpus)
    ensures match Spec.ResolvePaper(s.content.corpus, selector)
      case Missing => r == Err(NotFound)
      case Ambiguous => r == Err(CatalogConflict)
      case Found(paper) => r == Ok(paper)
  {
    var corpus := s.content.corpus;
    match selector
    case ById(id) => r := if id in corpus.papers then Ok(id) else Err(NotFound);
    case ByArxiv(v) =>
      var key := Key("arxiv", v);
      r := if key in corpus.paperIds then Ok(corpus.paperIds[key]) else Err(NotFound);
    case ByDoi(v) =>
      var values := DoiTargets(corpus, v);
      if |values| > 1 {
        ManyTargets(values);
        return Err(CatalogConflict);
      }
      FewTargets(values);
      if values == {} {
        return Err(NotFound);
      }
      var value :| value in values;
      r := Ok(value);
  }

  /** _load: the row and the number of its papers. */
  method Load(s: Session, id: Id) returns (r: Result<CollectionView>)
    ensures r == if id in s.content.shelf.collections then Ok(View(s.content.shelf, id)) else Err(NotFound)
  {
    if id !in s.content.shelf.collections {
      return Err(NotFound);
    }
    return Ok(View(s.content.shelf, id));
  }

  // ---- commands

  method Create(s: Session, slug: string, title: string, now: Time) returns (r: Result<CollectionView>)
    requires s.next !in s.content.shelf.collections && slug != "" && title != ""
    modifies s
    ensures match CreateCollection(old(s.content), slug, title, old(s.next), now)
      case Raised(e) => r == Err(e) && s.visible == old(s.visible)
      case Done(c, n, view) => r == Ok(view) && s.content == c && s.next == n && s.visible
  {
    var id := s.NewId();
    var row := CollectionRow(slug, title, now, now);
    var inserted := InsertCollection(s.content, id, row);
    if inserted.None? {
      return Err(IntegrityViolation);
    }
    s.content := inserted.value;
    s.visible := true;
    return Ok(CollectionView(id, row, 0));
  }

  method Rename(s: Session, id: Id, title: string, now: Time) returns (r: Result<CollectionView>)
    requires title != ""
    modifies s
    ensures r.Ok? ==> id in old(s.content.shelf.collections)
    ensures match RenameCollection(old(s.content), id, title, old(s.next), now)
      case Raised(e) => r == Err(e) && s.visible == old(s.visible)
      case Done(c, n, view) =>
        && r == Ok(view) && s.content == c && s.next == n
        && s.visible == (old(s.visible) || old(s.content.shelf.collections)[id].title != title)
  {
    var current := Load(s, id);
    if current.Err? {
      return current;
    }
    if current.value.row.title == title {
      return current;
    }
    ghost var before := s.content.shelf;
    s.content := UpdateTitle(s.content, id, title, now);
    s.visible := true;
    return Ok(CollectionView(id, current.value.row.(title := title, updatedAt := now), current.value.paperCount));
  }

  /** The insert and updates of add, for every combination of a stored and a new note. */
  method PutMember(s: Session, m: MemberKey, note: Option<string>, now: Time)
    requires m.collection in s.content.shelf.collections && m.paper in s.content.corpus.papers
    modifies s`content
    ensures s.content == old(s.content).(shelf := old(s.content.shelf).(members := old(s.content.shelf.members)[
      m := MemberRow(if m in old(s.content.shelf.members) then old(s.content.shelf.members)[m].addedAt else now, note)]))
  {
    var members := s.content.shelf.members;
    var existing := if m in members then members[m].note else None;
    if existing.None? {
      var ignored := m in members;
      s.content := InsertMember(s.content, m, MemberRow(now, note));
      if ignored {
        s.content := UpdateNote(s.content, m, note);
      }
    } else {
      s.content := UpdateNote(s.content, m, note);
    }
  }

  method Add(s: Session, id: Id, selector: Selector, note: Option<string>, now: Time) returns (r: Result<CollectionView>)
    requires Inv(s.content, s.next)
    modifies s
    ensures IdentifiersResolve(old(s.content.corpus))
    ensures match AddMember(old(s.content), id, selector, note, old(s.next), now)
      case Raised(e) => r == Err(e) && s.content == old(s.content) && s.visible == old(s.visible)
      case Done(c, n, view) =>
        && r == Ok(view) && s.content == c && s.next == n
        && s.visible == (old(s.visible) || c != old(s.content))
  {
    hide Inv, Spec.ResolvePaper, IdentifiersResolve, MemberCount;
    ghost var c := s.content;
    InvResolves(c, s.next);
    var current := Load(s, id);
    if current.Err? {
      return current;
    }
    var paper := ResolvePaper(s, selector);
    if paper.Err? {
      return Err(paper.error);
    }
    PaperIsThere(c, selector, s.next);
    var m := MemberKey(id, paper.value);
    var members := s.content.shelf.members;
    var existing := if m in members then members[m].note else None;
    if existing == note && (existing.Some? || m in members) {
      return current;
    }
    PutMember(s, m, note, now);
    s.content := TouchCollection(s.content, id, now);
    s.visible := true;
    assert s.content.shelf.members != c.shelf.members;
    r := Load(s, id);
  }

  lemma PaperIsThere(c: Content, selector: Selector, n: Id)
    requires Inv(c, n) && IdentifiersResolve(c.corpus)
    ensures Spec.ResolvePaper(c.corpus, selector).Found? ==> Spec.ResolvePaper(c.corpus, selector).paper in c.corpus.papers
  {
    hide IngestOk, BlobsOk, Conserved, ShelfOk, FreshFrom, CorpusOk, Spec.ResolvePaper;
    ResolvedPaperExists(c, selector, n);
  }

  method Remove(s: Session, id: Id, selector: Selector, now: Time) returns (r: Result<CollectionView>)
    requires Inv(s.content, s.next)
    modifies s
    ensures IdentifiersResolve(old(s.content.corpus))
    ensures match RemoveMember(old(s.content), id, selector, old(s.next), now)
      case Raised(e) => r == Err(e) && s.content == old(s.content) && s.visible == old(s.visible)
      case Done(c, n, view) =>
        && r == Ok(view) && s.content == c && s.next == n
        && s.visible == (old(s.visible) || c != old(s.content))
  {
    hide Inv, Spec.ResolvePaper, IdentifiersResolve, MemberCount;
    ghost var c := s.content;
    InvResolves(c, s.next);
    var current := Load(s, id);
    if current.Err? {
      return current;
    }
    var paper := ResolvePaper(s, selector);
    if paper.Err? {
      return Err(paper.error);
    }
    var m := MemberKey(id, paper.value);
    var found := m in s.content.shelf.members;
    s.content := DeleteMember(s.content, m);
    if !found {
      assert c.shelf.members - {m} == c.shelf.members;
      return current;
    }
    s.content := TouchCollection(s.content, id, now);
    s.visible := true;
    assert m !in s.content.shelf.members;
    r := Load(s, id);
  }
}
