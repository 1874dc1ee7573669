/** What every history of committed units leaves behind, from the empty catalog on. */
module ReachableCatalogs {
  import opened Base
  import opened CatalogSchema
  import opened CatalogSpec
  import opened CatalogInvariant
  import opened CatalogHistory
  import opened IndexDocuments

  predicate CurrentFor(versions: map<Id, VersionRow>, w: Id, v: Id) {
    w in versions && v in versions && SameLine(versions[w], versions[v]) && versions[w].isCurrent
  }

  /** Every version has one current version in its line, and no line has two. */
  ghost predicate OneCurrentPerLine(versions: map<Id, VersionRow>) {
    && (forall v :: v in versions ==> exists w :: CurrentFor(versions, w, v))
    && (forall v, w, u :: CurrentFor(versions, w, v) && CurrentFor(versions, u, v) ==> w == u)
  }

  /** The own identifier of every version names that version and no other. */
  ghost predicate OwnIdentifiers(x: Corpus) {
    && (forall v :: v in x.versions ==> Key(x.versions[v].source, x.versions[v].key) in x.versionIds)
    && (forall v :: v in x.versions ==> x.versionIds[Key(x.versions[v].source, x.versions[v].key)] == v)
  }

  /** Every observation has one artifact, which holds the bytes of its digest. */
  ghost predicate OneArtifactEach(x: Corpus) {
    && (forall o :: o in x.observations ==>
          exists a :: a in x.artifacts && x.artifacts[a].observation == o && x.artifacts[a].blob == x.observations[o].sha)
    && (forall a, b :: a in x.artifacts && b in x.artifacts && x.artifacts[a].observation == x.artifacts[b].observation
          ==> a == b)
  }

  lemma CurrentIsUnique(versions: map<Id, VersionRow>)
    requires CurrentOk(versions)
    ensures OneCurrentPerLine(versions)
  {
    hide CurrentFor, CurrentOk;
    forall v | v in versions
      ensures exists w :: CurrentFor(versions, w, v)
    {
      var w := LastCreated(versions, v);
      CurrentForLast(versions, v, w);
    }
    forall v, w, u | CurrentFor(versions, w, v) && CurrentFor(versions, u, v)
      ensures w == u
    {
      NoTwoCurrent(versions, v, w, u);
    }
  }

  lemma CurrentForLast(versions: map<Id, VersionRow>, v: Id, w: Id)
    requires v in versions && w in LineOf(versions, v) && versions[w].isCurrent
    ensures CurrentFor(versions, w, v)
  {
  }

  lemma NoTwoCurrent(versions: map<Id, VersionRow>, v: Id, w: Id, u: Id)
    requires CurrentOk(versions) && CurrentFor(versions, w, v) && CurrentFor(versions, u, v)
    ensures w == u
  {
    assert CreatedLast(versions, w) && CreatedLast(versions, u);
    assert SameLine(versions[w], versions[u]) && SameLine(versions[u], versions[w]);
  }

  lemma ArtifactsOfInv(c: Content, n: Id)
    requires Inv(c, n)
    ensures OneArtifactEach(c.corpus)
  {
    hide IngestOk, BlobsOk, ShelfOk, FreshFrom, Conserved, VersionsOk, CurrentOk, ObservationsOk, EveryVersionObserved;
    hide ChildrenOk, IdentifiersOk;
    var x := c.corpus;
    forall o | o in x.observations
      ensures exists a :: a in x.artifacts && x.artifacts[a].observation == o && x.artifacts[a].blob == x.observations[o].sha
    {
      assert HasArtifact(x.artifacts, o);
      var a :| a in x.artifacts && x.artifacts[a].observation == o;
      assert x.artifacts[a].blob == x.observations[o].sha;
    }
  }

  lemma IdentifiersOfInv(c: Content, n: Id)
    requires Inv(c, n)
    ensures OwnIdentifiers(c.corpus) && CurrentOk(c.corpus.versions)
  {
    hide IngestOk, BlobsOk, ShelfOk, FreshFrom, Conserved, CurrentOk, ObservationsOk, EveryVersionObserved;
    hide ChildrenOk, ArtifactsOk;
    assert forall v :: v in c.corpus.versions ==> KeyOf(c.corpus.versions[v]) in c.corpus.versionIds;
  }

  /** The identity facts the repository relies on hold after every history. */
  lemma IdentityIsKept(units: seq<seq<Call>>)
    requires ValidUnits(units)
    ensures var x := Reach(units).content.corpus;
      OneCurrentPerLine(x.versions) && OwnIdentifiers(x) && OneArtifactEach(x)
  {
    hide Inv, Reach, CurrentOk, OneCurrentPerLine, OwnIdentifiers, OneArtifactEach;
    ReachIsSound(units);
    var db := Reach(units);
    IdentifiersOfInv(db.content, db.next);
    ArtifactsOfInv(db.content, db.next);
    CurrentIsUnique(db.content.corpus.versions);
  }

  /** After every history list_index_documents finds the rows it follows, and it raises exactly when the newest
      observation of some current version has a blank author, category or language. */
  lemma ListingRaisesExactlyThen(units: seq<seq<Call>>)
    requires ValidUnits(units)
    ensures var c := Reach(units).content; Listable(c) && (AllAccepted(c) <==> AllIndexable(c.corpus))
  {
    hide Inv, Reach, Listable, AllAccepted;
    ReachIsSound(units);
    ListingRaisesIffNotIndexable(Reach(units).content, Reach(units).next);
  }

  /** After every history each version's paper and source have exactly one listed document: that of the version
      created last, with its newest observation. */
  lemma OneDocumentEach(units: seq<seq<Call>>, v: Id)
    requires ValidUnits(units) && v in Reach(units).content.corpus.versions
    ensures var c := Reach(units).content;
      Listable(c) && exists i: nat :: i < |Documents(c)| && IsTheDocument(c, Documents(c), i, v)
  {
    hide Inv, Reach, Listable, IsTheDocument;
    ReachIsSound(units);
    InvIsListable(Reach(units).content, Reach(units).next);
    var i := OneDocumentPerLine(Reach(units).content, Reach(units).next, v);
  }

  /** A unit of one operation moves the revision by one if it changed the catalog, and not at all otherwise. */
  lemma RevisionCountsChanges(units: seq<seq<Call>>, call: Call)
    requires ValidUnits(units) && ValidOp(call.op)
    ensures ValidUnits(units + [[call]])
    ensures var before, after := Reach(units), Reach(units + [[call]]);
      after.revision == before.revision + (if after.content == before.content then 0 else 1)
  {
    hide Inv, Reach, Play, Apply, Marks, RunCalls, ValidOp;
    ReachIsSound(units);
    var db := Reach(units);
    ReachNext(units, [call]);
    SingleCall(db.content, db.next, call);
    MarksMeansChanged(db.content, db.next, call);
  }

  /** After every history, the revision that an operation of a unit reports is the committed one exactly when some
      operation up to it changed a row, or none after it does. */
  lemma ReportedRevisionIsCommitted(units: seq<seq<Call>>, us: seq<Call>, call: Call, vs: seq<Call>)
    requires ValidUnits(units) && ValidCalls(us) && ValidOp(call.op) && ValidCalls(vs)
    ensures ValidCalls(us + [call]) && ValidCalls(us + [call] + vs) && Sound(Reach(units))
    ensures var db := Reach(units);
      var u := RunCalls(db.content, db.next, us + [call], false);
      u.Committed? ==>
        && Inv(u.content, u.next)
        && (RunCalls(db.content, db.next, us + [call] + vs, false).Committed? ==>
              (ReportedRevision(db, us + [call]) == RunUnit(db, us + [call] + vs).revision
               <==> SomeChange(db.content, db.next, us + [call]) || !SomeChange(u.content, u.next, vs)))
  {
    hide Inv, Reach, RunCalls, SomeChange, ValidOp, RunUnit;
    ReachIsSound(units);
    ReportIsCommittedRevision(Reach(units), us, call, vs);
  }

  /** After every history, a unit moves the revision by one exactly when it is committed and some operation of it
      changed a row. */
  lemma UnitMovesRevision(units: seq<seq<Call>>, calls: seq<Call>)
    requires ValidUnits(units) && ValidCalls(calls)
    ensures ValidUnits(units + [calls]) && Sound(Reach(units))
    ensures var db := Reach(units);
      Reach(units + [calls]).revision == db.revision + (
        if RunCalls(db.content, db.next, calls, false).Committed? && SomeChange(db.content, db.next, calls)
        then 1 else 0)
  {
    hide Inv, Reach, RunCalls, SomeChange, ValidOp, RunUnit;
    ReachNext(units, calls);
    UnitKeeps(Reach(units), calls);
  }

  lemma ReachNext(units: seq<seq<Call>>, calls: seq<Call>)
    requires ValidUnits(units) && ValidCalls(calls)
    ensures ValidUnits(units + [calls])
    ensures Sound(Reach(units)) && Reach(units + [calls]) == RunUnit(Reach(units), calls)
  {
    hide Inv, RunUnit, ValidCalls;
    InitialInv();
    assert ValidUnits([calls]);
    PlayConcat(INITIAL_DB, units, [calls]);
    var db := Reach(units);
    UnitKeeps(db, calls);
    assert [calls][1..] == [];
    assert Play(RunUnit(db, calls), []) == RunUnit(db, calls);
  }
}
