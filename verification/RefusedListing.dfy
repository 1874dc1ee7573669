/** A history of two units of work after which list_index_documents raises: the catalog stores a category that is
    only white space, and IndexDocument refuses it. */
module RefusedListing {
  import opened Base
  import opened CatalogSchema
  import opened CatalogSpec
  import opened CatalogInvariant
  import opened CatalogHistory
  import opened IndexDocuments
  import opened Preparation

  const QUERY := Query(Some("quasars"), [], [], [], None, None, 1, None)
  const PAYLOAD := Sha256([60])
  const PAGE := PageAttachment(
    0, BlobRef(PAYLOAD, 1, "application/atom+xml", BlobPath(PAYLOAD)), PAYLOAD, 0, None,
    [RecordKey(Some("1"), Some("1v1"), PAYLOAD)])
  const PREPARED := AttachCommand(0, "arxiv", PAYLOAD, QueryText(QueryJson(QUERY)), [PAGE], [Locator(0, 0)])

  const NORMALIZED := Sha256([1])
  const PLAIN := Metadata("T", None, None, None, None, None, None, None)
  const OBSERVED := Observed("arxiv", "1", "1v1", 0, 0, NORMALIZED, PLAIN, [Author("A", None)], [Category(" ", true)], [])
  const ACCEPT := RecordCommand(ItemKey(0, Place(0, 0)), OBSERVED, MetadataRef(NORMALIZED))

  const UNITS := [[Call(Attach(PREPARED), 0)], [Call(Record(ACCEPT), 0)]]

  function Attached(): Content {
    var g := Ingest(
      map[0 := SnapshotRow(0, "arxiv", PAYLOAD, PAYLOAD, 0, None)], map[0 := 0], map[0 := PAGE.records], map[],
      map[0 := RunRow("arxiv", PAYLOAD, QueryText(QueryJson(QUERY)), Running, 0, None, 1, ZERO_COUNTERS)], map[0 := [0]],
      map[0 := [Place(0, 0)]], map[], map[]);
    Content({"arxiv"}, map[PAYLOAD := BlobRow(1, "application/atom+xml", BlobPath(PAYLOAD), 0)], EMPTY_CORPUS, g,
            Shelf(map[], map[]))
  }

  lemma AttachOne()
    ensures Inv(INITIAL_CONTENT, 0) && ValidOp(Attach(PREPARED))
    ensures Apply(INITIAL_CONTENT, 0, Call(Attach(PREPARED), 0)) == Done(Attached(), 1, ())
  {
    hide Inv, IdentifiersResolve, ItemsResolve, SelectionResolves, VersionsResolve, QueryText, QueryJson;
    assert IsQueryText(PREPARED.query);
    InitialInv();
    InvResolves(INITIAL_CONTENT, 0);
    var g := INITIAL_CONTENT.ingest;
    assert PREPARED.run !in g.runs && PAGE.capture !in g.captures;
    var c1 := INITIAL_CONTENT.(
      blobs := Attached().blobs,
      ingest := g.(snapshots := Attached().ingest.snapshots, captures := map[0 := 0], records := map[0 := PAGE.records]));
    assert AttachPages(INITIAL_CONTENT, PREPARED, 0, 0, 0) == Done(INITIAL_CONTENT, 0, []);
    assert AttachPage(INITIAL_CONTENT, "arxiv", PAGE, 0, 0) == Done(c1, 1, 0);
    assert PREPARED.pages[0] == PAGE && [] + [0] == [0];
    assert AttachPages(INITIAL_CONTENT, PREPARED, 1, 0, 0) == Done(c1, 1, [0]);
    assert SelectedPlaces(PREPARED, [0]) == [Place(0, 0)];
    assert InsertRun(c1.ingest, PREPARED, [0], 0) == Attached().ingest;
  }

  lemma RecordIsValid()
    ensures ValidOp(Record(ACCEPT))
  {
  }

  const FOUND := Target(2, true, 1, true, 3)

  lemma RecordOneAbsorbs()
    requires Inv(Attached(), 1)
    ensures Resolves(Attached())
    ensures RecordItem(Attached(), ACCEPT, 1, 0) == Absorb(Attached(), FOUND, ACCEPT, 0)
  {
    hide Inv, IdentifiersResolve, ItemsResolve, VersionsResolve, CapturesResolve, Absorb, QueryText, QueryJson;
    var c := Attached();
    InvResolves(c, 1);
    assert c.ingest.selected[0][0] == Place(0, 0);
    assert IsSelected(c.ingest, ACCEPT.key);
    SelectedResolves(c.ingest, ACCEPT.key);
    assert SelectedRecord(c.ingest, ACCEPT.key) == Selected(Running, "arxiv", 0, PAGE.records[0], None);
    assert Targets(c.corpus.paperIds, PaperKeys(OBSERVED)) == {};
    assert Targets(c.corpus.versionIds, VersionKeys(OBSERVED)) == {};
    assert ResolveTarget(c.corpus, OBSERVED, 1) == Some(FOUND);
  }

  /** The rows that the record leaves behind. */
  ghost predicate LeavesBlankCategory(x: Corpus) {
    && x.versions == map[1 := VersionRow(2, "arxiv", "1v1", true, 0)]
    && x.observations == map[3 := ObservationRow(1, NORMALIZED, 0, "arxiv", ACCEPT.key, PLAIN)]
    && 3 in x.authors && 3 in x.categories && x.categories[3] == [Category(" ", true)]
  }

  lemma AbsorbsBlankCategory()
    ensures var r := Absorb(Attached(), FOUND, ACCEPT, 0); r.Done? && LeavesBlankCategory(r.content.corpus)
  {
    hide Bind, Witness;
    assert Demote(map[], 2, "arxiv") == map[];
    assert !IsSpace(PLAIN.title[0]) && Storable(OBSERVED);
  }

  lemma RecordOne()
    requires Inv(Attached(), 1) && ValidOp(Record(ACCEPT))
    ensures var r := Apply(Attached(), 1, Call(Record(ACCEPT), 0)); r.Done? && LeavesBlankCategory(r.content.corpus)
  {
    hide Inv, Absorb, RecordItem, Resolves, LeavesBlankCategory, Attached;
    RecordOneAbsorbs();
    AbsorbsBlankCategory();
  }

  lemma TwoUnits()
    ensures ValidUnits(UNITS)
    ensures LeavesBlankCategory(Reach(UNITS).content.corpus)
  {
    hide Inv, Apply, Marks, RunCalls, ValidOp;
    AttachOne();
    var attach, record := UNITS[0][0], UNITS[1][0];
    RecordIsValid();
    ApplyKeepsInv(INITIAL_CONTENT, 0, attach);
    SingleCall(INITIAL_CONTENT, 0, attach);
    RecordOne();
    SingleCall(Attached(), 1, record);
    assert UNITS[0] == [attach] && UNITS[1] == [record] && UNITS[1..] == [UNITS[1]];
    UnitKeeps(INITIAL_DB, UNITS[0]);
    var db := RunUnit(INITIAL_DB, UNITS[0]);
    assert db.content == Attached() && db.next == 1;
    UnitKeeps(db, UNITS[1]);
    assert Play(RunUnit(db, UNITS[1]), []) == RunUnit(db, UNITS[1]);
    assert Play(db, [UNITS[1]]) == RunUnit(db, UNITS[1]);
  }

  lemma BlankCategoryIsNotIndexable(x: Corpus)
    requires LeavesBlankCategory(x)
    ensures !AllIndexable(x)
  {
    assert ObservationsOf(x, 1) == {3};
    assert Values(x.categories[3])[0] == " " && Blank(" ");
    assert !Indexable(x, 1);
  }

  /** After these two units the invariant of the catalog holds, and the listing raises. */
  lemma ListingCanRaise()
    ensures ValidUnits(UNITS) && Sound(Reach(UNITS))
    ensures Listable(Reach(UNITS).content) && !AllAccepted(Reach(UNITS).content)
  {
    hide Inv, Reach, AllAccepted, Listable, LeavesBlankCategory, AllIndexable;
    TwoUnits();
    var db := Reach(UNITS);
    ReachIsSound(UNITS);
    ListingRaisesIffNotIndexable(db.content, db.next);
    BlankCategoryIsNotIndexable(db.content.corpus);
  }
}
