/** Collections refine a plain map from collection and paper to an optional note. */
module Collections {
  import opened Base
  import opened CatalogSchema
  import opened CatalogSpec
  import opened CatalogInvariant
  import opened RecordProofs
  import opened RecordInvariant
  import opened RunProofs
  import opened CatalogGrowth
  import opened CatalogHistory

  datatype Label = Label(slug: string, title: string)

  /** What collections are, without their timestamps. */
  datatype Plain = Plain(labels: map<Id, Label>, notes: map<MemberKey, Option<string>>)

  function Abstracted(shelf: Shelf): Plain {
    Plain(map k | k in shelf.collections :: Label(shelf.collections[k].slug, shelf.collections[k].title),
          map m | m in shelf.members :: shelf.members[m].note)
  }

  /** Each command as one update of the plain maps; None means it raises. */
  ghost function PlainStep(p: Plain, corpus: Corpus, n: Id, op: Op): Option<Plain>
    requires IdentifiersResolve(corpus) && IsCollectionOp(op)
  {
    match op
    case Create(slug, title) =>
      if exists k :: k in p.labels && p.labels[k].slug == slug then None
      else Some(p.(labels := p.labels[n := Label(slug, title)]))
    case Rename(id, title) =>
      if id in p.labels then Some(p.(labels := p.labels[id := Label(p.labels[id].slug, title)])) else None
    case Add(id, s, note) =>
      if id in p.labels && ResolvePaper(corpus, s).Found?
      then Some(p.(notes := p.notes[MemberKey(id, ResolvePaper(corpus, s).paper) := note])) else None
    case Remove(id, s) =>
      if id in p.labels && ResolvePaper(corpus, s).Found?
      then Some(p.(notes := p.notes - {MemberKey(id, ResolvePaper(corpus, s).paper)})) else None
  }

  predicate IsCollectionOp(op: Op) {
    op.Create? || op.Rename? || op.Add? || op.Remove?
  }

  lemma CreateRefines(c: Content, n: Id, slug: string, title: string, now: Time)
    requires IdentifiersResolve(c.corpus) && n !in c.shelf.collections
    ensures var r := CreateCollection(c, slug, title, n, now);
      var p := PlainStep(Abstracted(c.shelf), c.corpus, n, Create(slug, title));
      && (r.Done? <==> p.Some?)
      && (r.Done? ==> Abstracted(r.content.shelf) == p.value && p.value != Abstracted(c.shelf))
  {
    var p := Abstracted(c.shelf);
    assert SlugTaken(c.shelf, slug) <==> exists k :: k in p.labels && p.labels[k].slug == slug by {
      if SlugTaken(c.shelf, slug) {
        var k :| k in c.shelf.collections && c.shelf.collections[k].slug == slug;
        assert k in p.labels && p.labels[k].slug == slug;
      }
    }
    assert n !in p.labels;
  }

  lemma RenameRefines(c: Content, n: Id, id: Id, title: string, now: Time)
    requires IdentifiersResolve(c.corpus)
    ensures var r := RenameCollection(c, id, title, n, now);
      var p := PlainStep(Abstracted(c.shelf), c.corpus, n, Rename(id, title));
      && (r.Done? <==> p.Some?)
      && (r.Done? ==> Abstracted(r.content.shelf) == p.value && (r.content == c <==> p.value == Abstracted(c.shelf)))
  {
    var r := RenameCollection(c, id, title, n, now);
    if r.Done? {
      var p := Abstracted(c.shelf);
      if c.shelf.collections[id].title == title {
        assert p.labels[id := Label(p.labels[id].slug, title)] == p.labels;
      } else {
        assert Abstracted(r.content.shelf).labels == p.labels[id := Label(p.labels[id].slug, title)];
        assert p.labels[id].title != title;
      }
    }
  }

  lemma AddRefines(c: Content, n: Id, id: Id, s: Selector, note: Option<string>, now: Time)
    requires IdentifiersResolve(c.corpus)
    ensures var r := AddMember(c, id, s, note, n, now);
      var p := PlainStep(Abstracted(c.shelf), c.corpus, n, Add(id, s, note));
      && (r.Done? <==> p.Some?)
      && (r.Done? ==> Abstracted(r.content.shelf) == p.value && (r.content == c <==> p.value == Abstracted(c.shelf)))
  {
    hide ResolvePaper, IdentifiersResolve, MemberCount;
    var r := AddMember(c, id, s, note, n, now);
    if r.Done? {
      var m := MemberKey(id, ResolvePaper(c.corpus, s).paper);
      TouchKeepsLabels(c.shelf, id, now);
      var p := Abstracted(c.shelf);
      if m in c.shelf.members && c.shelf.members[m].note == note {
        assert p.notes[m := note] == p.notes;
      } else {
        assert Abstracted(r.content.shelf).notes == p.notes[m := note];
        assert Abstracted(r.content.shelf).labels == p.labels;
        assert m !in p.notes || p.notes[m] != note;
      }
    }
  }

  lemma TouchKeepsLabels(shelf: Shelf, id: Id, now: Time)
    requires id in shelf.collections
    ensures Abstracted(Touch(shelf, id, now)) == Abstracted(shelf)
  {
  }

  lemma RemoveRefines(c: Content, n: Id, id: Id, s: Selector, now: Time)
    requires IdentifiersResolve(c.corpus)
    ensures var r := RemoveMember(c, id, s, n, now);
      var p := PlainStep(Abstracted(c.shelf), c.corpus, n, Remove(id, s));
      && (r.Done? <==> p.Some?)
      && (r.Done? ==> Abstracted(r.content.shelf) == p.value && (r.content == c <==> p.value == Abstracted(c.shelf)))
  {
    hide ResolvePaper, IdentifiersResolve, MemberCount;
    var r := RemoveMember(c, id, s, n, now);
    if r.Done? {
      var m := MemberKey(id, ResolvePaper(c.corpus, s).paper);
      TouchKeepsLabels(c.shelf, id, now);
      var p := Abstracted(c.shelf);
      if m !in c.shelf.members {
        assert p.notes - {m} == p.notes;
      } else {
        assert Abstracted(r.content.shelf).notes == p.notes - {m};
        assert Abstracted(r.content.shelf).labels == p.labels;
        assert m in p.notes;
      }
    }
  }

  /** One command, whatever notes are stored or given: it succeeds exactly when the plain step does, does what the
      plain step does, and marks the unit visible exactly when that changes the plain maps. */
  lemma CommandRefines(c: Content, n: Id, call: Call)
    requires Inv(c, n) && ValidOp(call.op) && IsCollectionOp(call.op) && IdentifiersResolve(c.corpus)
    ensures var r := Apply(c, n, call);
      var p := PlainStep(Abstracted(c.shelf), c.corpus, n, call.op);
      && (r.Done? <==> p.Some?)
      && (r.Done? ==>
            Abstracted(r.content.shelf) == p.value && (Marks(c, n, call.op) <==> p.value != Abstracted(c.shelf)))
  {
    hide Inv, CreateCollection, RenameCollection, AddMember, RemoveMember, Resolves, IdentifiersResolve, Abstracted, PlainStep;
    hide ResolvePaper, Marks;
    InvResolves(c, n);
    MarksMeansChanged(c, n, call);
    match call.op
    case Create(slug, title) =>
      NextIsFresh(c, n);
      CreateRefines(c, n, slug, title, call.now);
    case Rename(id, title) => RenameRefines(c, n, id, title, call.now);
    case Add(id, s, note) => AddRefines(c, n, id, s, note, call.now);
    case Remove(id, s) => RemoveRefines(c, n, id, s, call.now);
  }

  lemma NextIsFresh(c: Content, n: Id)
    requires Inv(c, n)
    ensures n !in c.shelf.collections
  {
    hide BlobsOk, CorpusOk, IngestOk, ShelfOk, Conserved, FreshCorpus;
    assert Below(c.shelf.collections, n);
  }

  // ---- units

  /** A unit of one collection command, as the command line runs it: the plain maps take one step or none, and the
      revision moves by one exactly when they changed. */
  lemma UnitRefines(db: Db, call: Call)
    requires Sound(db) && ValidOp(call.op) && IsCollectionOp(call.op) && IdentifiersResolve(db.content.corpus)
    ensures var after := RunUnit(db, [call]);
      var before := Abstracted(db.content.shelf);
      var p := PlainStep(before, db.content.corpus, db.next, call.op);
      && Abstracted(after.content.shelf) == (if p.Some? then p.value else before)
      && after.revision == db.revision + (if Abstracted(after.content.shelf) != before then 1 else 0)
  {
    hide Inv, Apply, Marks, Abstracted, PlainStep, ValidOp, IdentifiersResolve;
    CommandRefines(db.content, db.next, call);
    SingleCall(db.content, db.next, call);
  }

  /** No ingestion operation touches a collection. */
  lemma IngestionLeavesCollections(c: Content, n: Id, call: Call)
    requires Inv(c, n) && ValidOp(call.op) && !IsCollectionOp(call.op)
    ensures var r := Apply(c, n, call); r.Done? ==> r.content.shelf == c.shelf
  {
    hide Inv, AttachRun, RecordItem, RecordFailure, FinalizeRun, RepairRun, Resolves, ValidAttach, ValidRecord;
    InvResolves(c, n);
    match call.op
    case Attach(cmd) => AttachLeavesShelf(c, n, cmd, call.now);
    case Record(cmd) => RecordLeavesShelf(c, n, cmd, call.now);
    case Fail(cmd) => FailLeavesShelf(c, n, cmd);
    case Finalize(run) => FinalizeLeavesShelf(c, n, run, call.now);
    case Repair(cmd) => RepairLeavesShelf(c, n, cmd, call.now);
  }

  // ---- histories

  ghost predicate AllValidOps(calls: seq<Call>) {
    forall i | 0 <= i < |calls| :: ValidOp(calls[i].op)
  }

  /** The same operations, each in a unit of its own. */
  function Singles(calls: seq<Call>): seq<seq<Call>> {
    seq(|calls|, i requires 0 <= i < |calls| => [calls[i]])
  }

  /** The plain maps after a sequence of operations; `db` supplies the papers that identifiers resolve to. */
  ghost function PlainPlay(db: Db, calls: seq<Call>, p: Plain): Plain
    requires Sound(db) && AllValidOps(calls)
    decreases |calls|
  {
    hide Inv, RunUnit, PlainStep, Grows, ValidOp, Resolves, IdentifiersResolve;
    if calls == [] then p
    else
      InvResolves(db.content, db.next);
      UnitKeeps(db, [calls[0]]);
      var op := calls[0].op;
      var q := if IsCollectionOp(op) then PlainStep(p, db.content.corpus, db.next, op) else None;
      PlainPlay(RunUnit(db, [calls[0]]), calls[1..], if q.Some? then q.value else p)
  }

  /** Over every history of collection commands and ingestion operations, in any order, the collections are what the
      plain maps become. */
  lemma {:induction false} HistoryRefines(db: Db, calls: seq<Call>)
    requires Sound(db) && AllValidOps(calls)
    ensures ValidUnits(Singles(calls))
    ensures Abstracted(Play(db, Singles(calls)).content.shelf) == PlainPlay(db, calls, Abstracted(db.content.shelf))
    decreases |calls|
  {
    hide Inv, RunUnit, PlainStep, Grows, ValidOp, Resolves, IdentifiersResolve, Abstracted;
    SinglesAreValid(calls);
    if calls != [] {
      InvResolves(db.content, db.next);
      UnitKeeps(db, [calls[0]]);
      assert Singles(calls)[0] == [calls[0]] && Singles(calls)[1..] == Singles(calls[1..]);
      var next := RunUnit(db, [calls[0]]);
      HistoryRefines(next, calls[1..]);
      if IsCollectionOp(calls[0].op) {
        UnitRefines(db, calls[0]);
      } else {
        UnitLeavesCollections(db, calls[0]);
      }
    }
  }

  /** From the empty catalog on, whatever the commands. */
  lemma CollectionsFollowCommands(calls: seq<Call>)
    requires AllValidOps(calls)
    ensures ValidUnits(Singles(calls)) && Sound(INITIAL_DB)
    ensures Abstracted(Reach(Singles(calls)).content.shelf) == PlainPlay(INITIAL_DB, calls, Plain(map[], map[]))
  {
    hide Inv, Play, PlainPlay, ValidOp;
    InitialInv();
    HistoryRefines(INITIAL_DB, calls);
    assert Abstracted(INITIAL_CONTENT.shelf) == Plain(map[], map[]);
  }

  lemma SinglesAreValid(calls: seq<Call>)
    requires AllValidOps(calls)
    ensures ValidUnits(Singles(calls)) && (calls != [] ==> ValidOp(calls[0].op) && ValidCalls([calls[0]]))
  {
    hide ValidOp;
    forall i | 0 <= i < |calls|
      ensures ValidCalls(Singles(calls)[i])
    {
      assert Singles(calls)[i] == [calls[i]];
    }
  }

  lemma UnitLeavesCollections(db: Db, call: Call)
    requires Sound(db) && ValidOp(call.op) && !IsCollectionOp(call.op)
    ensures RunUnit(db, [call]).content.shelf == db.content.shelf
  {
    hide Inv, Apply, Marks, ValidOp;
    SingleCall(db.content, db.next, call);
    IngestionLeavesCollections(db.content, db.next, call);
  }

  lemma AttachLeavesShelf(c: Content, n: Id, cmd: AttachCommand, now: Time)
    requires Inv(c, n) && Resolves(c) && ValidAttach(cmd)
    ensures var r := AttachRun(c, cmd, n, now); r.Done? ==> r.content.shelf == c.shelf
  {
    hide CorpusOk, LinksOk, ItemsOk, OriginsOk, StatusesOk, RunsOk, EvidenceOk, Conserved, FreshCorpus, AttachPages;
    if cmd.run !in c.ingest.runs {
      AttachPagesStore(c, cmd, |cmd.pages|, n, now);
    }
  }

  lemma RecordLeavesShelf(c: Content, n: Id, cmd: RecordCommand, now: Time)
    requires Resolves(c)
    ensures var r := RecordItem(c, cmd, n, now); r.Done? ==> r.content.shelf == c.shelf
  {
    hide SelectionResolves, ItemsResolve, CapturesResolve, ResolveTarget, SelectedRecord, Admitted, LinkAgrees;
  }

  lemma FailLeavesShelf(c: Content, n: Id, cmd: FailureCommand)
    requires Resolves(c)
    ensures var r := RecordFailure(c, cmd, n); r.Done? ==> r.content.shelf == c.shelf
  {
    hide Resolves;
  }

  lemma FinalizeLeavesShelf(c: Content, n: Id, run: Id, now: Time)
    ensures var r := FinalizeRun(c, run, n, now); r.Done? ==> r.content.shelf == c.shelf
  {
  }

  lemma RepairLeavesShelf(c: Content, n: Id, cmd: RepairCommand, now: Time)
    requires Resolves(c)
    ensures var r := RepairRun(c, cmd, n, now); r.Done? ==> r.content.shelf == c.shelf
  {
    hide CapturesResolve, VersionsResolve, ItemsResolve;
  }

  // ---- views

  /** paper_count is the number of papers of the collection in the plain map. */
  lemma PaperCountIsMembers(shelf: Shelf, id: Id)
    requires id in shelf.collections
    ensures View(shelf, id).paperCount == |set m | m in Abstracted(shelf).notes && m.collection == id|
  {
    assert (set m | m in Abstracted(shelf).notes && m.collection == id)
        == (set m | m in shelf.members && m.collection == id);
  }

  // ---- DOI resolution

  /** The papers that some identifier row gives a DOI. */
  ghost predicate HoldsDoi(x: Corpus, value: string, paper: Id)
    requires IdentifiersResolve(x)
  {
    var key := Key("doi", value);
    || (key in x.paperIds && x.paperIds[key] == paper)
    || (key in x.versionIds && x.versions[x.versionIds[key]].paper == paper)
  }

  /** A DOI resolves to a paper exactly when that is the only paper that holds it, is missing exactly when no paper
      does, and is a conflict exactly when the two tables give it to different papers. */
  lemma DoiIsUniqueOrConflict(x: Corpus, value: string)
    requires IdentifiersResolve(x)
    ensures var r := ResolvePaper(x, ByDoi(value));
      && (forall p :: r == Found(p) <==> HoldsDoi(x, value, p) && forall q :: HoldsDoi(x, value, q) ==> q == p)
      && (r == Missing <==> forall p :: !HoldsDoi(x, value, p))
      && (r == Ambiguous <==> exists p, q :: p != q && HoldsDoi(x, value, p) && HoldsDoi(x, value, q))
  {
    var targets := DoiTargets(x, value);
    assert forall p :: p in targets <==> HoldsDoi(x, value, p);
    if targets != {} && AtMostOne(targets) {
      assert HoldsDoi(x, value, Any(targets));
    }
    if !AtMostOne(targets) {
      var p, q :| p in targets && q in targets && p != q;
      assert HoldsDoi(x, value, p) && HoldsDoi(x, value, q);
    }
  }
}
