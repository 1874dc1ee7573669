/** Over every history: two records belong to one paper exactly when a chain of identifiers that records showed
    connects them, and to one version exactly when they showed a version identifier in common. */
module SharedPapers {
  import opened Base
  import opened CatalogSchema
  import opened CatalogSpec
  import opened CatalogInvariant
  import opened RecordProofs
  import opened RecordInvariant
  import opened RunProofs
  import opened CatalogGrowth
  import opened CatalogHistory
  import opened PaperIdentity

  // ---- what the records of a history showed

  /** The operation records an observation at the place of the sighting, and does not replay an item. */
  ghost predicate TellsNow(c: Content, op: Op, s: Sighting) {
    && op.Record? && op.record.key !in c.ingest.items && op.record.key.place == s.place
    && Shows(op.record.observed, s.key, s.scope)
  }

  ghost predicate UnitTells(c: Content, n: Id, calls: seq<Call>, s: Sighting)
    requires Inv(c, n) && ValidCalls(calls)
    decreases |calls|
  {
    hide Inv, Apply;
    calls != [] &&
    (ApplyKeepsInv(c, n, calls[0]);
     match Apply(c, n, calls[0])
     case Raised(_) => false
     case Done(c1, n1, _) => TellsNow(c, calls[0].op, s) || UnitTells(c1, n1, calls[1..], s))
  }

  /** Some committed unit of the history did. */
  ghost predicate HistoryTells(db: Db, units: seq<seq<Call>>, s: Sighting)
    requires Sound(db) && ValidUnits(units)
    decreases |units|
  {
    hide Inv, RunUnit, RunCalls, UnitTells, Grows, SomeChange;
    units != [] &&
    (UnitKeeps(db, units[0]);
     || (RunCalls(db.content, db.next, units[0], false).Committed? && UnitTells(db.content, db.next, units[0], s))
     || HistoryTells(RunUnit(db, units[0]), units[1..], s))
  }

  /** Everything that the records of a history showed. */
  ghost function Told(units: seq<seq<Call>>): iset<Sighting>
    requires ValidUnits(units)
  {
    InitialInv();
    iset s | HistoryTells(INITIAL_DB, units, s)
  }

  // ---- one operation

  lemma AttachLeavesCorpus(c: Content, n: Id, cmd: AttachCommand, now: Time)
    requires Inv(c, n) && Resolves(c) && ValidAttach(cmd)
    ensures var r := AttachRun(c, cmd, n, now);
      r.Done? ==> r.content.corpus == c.corpus && r.content.ingest.links == c.ingest.links
  {
    hide CorpusOk, LinksOk, ItemsOk, OriginsOk, StatusesOk, RunsOk, EvidenceOk, Conserved, FreshCorpus, AttachPages;
    if cmd.run !in c.ingest.runs {
      AttachPagesStore(c, cmd, |cmd.pages|, n, now);
    }
  }

  lemma FailLeavesCorpus(c: Content, n: Id, cmd: FailureCommand)
    requires Resolves(c)
    ensures var r := RecordFailure(c, cmd, n);
      r.Done? ==> r.content.corpus == c.corpus && r.content.ingest.links == c.ingest.links
  {
    hide Resolves;
  }

  lemma RepairLeavesCorpus(c: Content, n: Id, cmd: RepairCommand, now: Time)
    requires Resolves(c)
    ensures var r := RepairRun(c, cmd, n, now);
      r.Done? ==> r.content.corpus == c.corpus && r.content.ingest.links == c.ingest.links
  {
    hide VersionsResolve, ItemsResolve, CapturesResolve, Tally;
  }

  lemma FinalizeLeavesCorpus(c: Content, n: Id, run: Id, now: Time)
    ensures var r := FinalizeRun(c, run, n, now);
      r.Done? ==> r.content.corpus == c.corpus && r.content.ingest.links == c.ingest.links
  {
    hide Tally, FinalStatus;
  }

  lemma CollectionsLeaveCorpus(c: Content, n: Id, id: Id, slug: string, title: string, now: Time)
    ensures var r := CreateCollection(c, slug, title, n, now); r.Done? ==> r.content == c.(shelf := r.content.shelf)
    ensures var r := RenameCollection(c, id, title, n, now); r.Done? ==> r.content == c.(shelf := r.content.shelf)
  {
  }

  lemma MembersLeaveCorpus(c: Content, n: Id, id: Id, s: Selector, note: Option<string>, now: Time)
    requires IdentifiersResolve(c.corpus)
    ensures var r := AddMember(c, id, s, note, n, now); r.Done? ==> r.content == c.(shelf := r.content.shelf)
    ensures var r := RemoveMember(c, id, s, n, now); r.Done? ==> r.content == c.(shelf := r.content.shelf)
  {
    hide ResolvePaper, View, Touch;
  }

  /** Only records touch the corpus and the links of the snapshot records. */
  lemma OthersLeaveCorpus(c: Content, n: Id, call: Call)
    requires Inv(c, n) && ValidOp(call.op) && !call.op.Record?
    ensures var r := Apply(c, n, call);
      r.Done? ==> r.content.corpus == c.corpus && r.content.ingest.links == c.ingest.links
  {
    hide Inv, AttachRun, RecordItem, RecordFailure, FinalizeRun, RepairRun, Resolves, ValidAttach, ValidRecord;
    hide CreateCollection, RenameCollection, AddMember, RemoveMember;
    InvResolves(c, n);
    match call.op
    case Attach(cmd) => AttachLeavesCorpus(c, n, cmd, call.now);
    case Fail(cmd) => FailLeavesCorpus(c, n, cmd);
    case Finalize(run) => FinalizeLeavesCorpus(c, n, run, call.now);
    case Repair(cmd) => RepairLeavesCorpus(c, n, cmd, call.now);
    case Create(slug, title) => CollectionsLeaveCorpus(c, n, 0, slug, title, call.now);
    case Rename(id, title) => CollectionsLeaveCorpus(c, n, id, "", title, call.now);
    case Add(id, s, note) => MembersLeaveCorpus(c, n, id, s, note, call.now);
    case Remove(id, s) => MembersLeaveCorpus(c, n, id, s, None, call.now);
  }

  lemma ApplyKeepsTraced(c: Content, n: Id, call: Call)
    requires Inv(c, n) && ValidOp(call.op) && Traced(c.corpus, c.ingest.links)
    ensures var r := Apply(c, n, call);
      r.Done? ==>
        && Traced(r.content.corpus, r.content.ingest.links)
        && forall s :: s in Seen(r.content.corpus) <==> s in Seen(c.corpus) || TellsNow(c, call.op, s)
  {
    hide Inv, RecordItem, Traced, Resolves, ValidRecord, Evident, Shows;
    if call.op.Record? {
      InvResolves(c, n);
      var cmd := call.op.record;
      if cmd.key in c.ingest.items {
        RecordMarks(c, n, cmd, call.now);
      } else {
        RecordKeepsTraced(c, cmd, n, call.now);
      }
    } else {
      OthersLeaveCorpus(c, n, call);
    }
  }

  // ---- units and histories

  lemma {:induction false} UnitKeepsTraced(c: Content, n: Id, calls: seq<Call>, visible: bool)
    requires Inv(c, n) && ValidCalls(calls) && Traced(c.corpus, c.ingest.links)
    ensures var u := RunCalls(c, n, calls, visible);
      u.Committed? ==>
        && Traced(u.content.corpus, u.content.ingest.links)
        && forall s :: s in Seen(u.content.corpus) <==> s in Seen(c.corpus) || UnitTells(c, n, calls, s)
    decreases |calls|
  {
    hide Inv, Apply, Marks, ValidOp, Traced, TellsNow, Seen;
    if calls != [] {
      ApplyKeepsInv(c, n, calls[0]);
      ApplyKeepsTraced(c, n, calls[0]);
      var r := Apply(c, n, calls[0]);
      if r.Done? {
        UnitKeepsTraced(r.content, r.next, calls[1..], visible || Marks(c, n, calls[0].op));
      }
    }
  }

  lemma {:induction false} HistoryKeepsTraced(db: Db, units: seq<seq<Call>>)
    requires Sound(db) && ValidUnits(units) && Traced(db.content.corpus, db.content.ingest.links)
    ensures var after := Play(db, units).content;
      && Traced(after.corpus, after.ingest.links)
      && forall s :: s in Seen(after.corpus) <==> s in Seen(db.content.corpus) || HistoryTells(db, units, s)
    decreases |units|
  {
    hide Inv, RunCalls, Traced, Seen, UnitTells, ValidCalls, Grows, SomeChange;
    if units != [] {
      UnitKeeps(db, units[0]);
      UnitKeepsTraced(db.content, db.next, units[0], false);
      HistoryKeepsTraced(RunUnit(db, units[0]), units[1..]);
    }
  }

  /** The stored evidence is what the committed records showed, no more and no less. */
  lemma EvidenceIsTold(units: seq<seq<Call>>)
    requires ValidUnits(units)
    ensures var c := Reach(units).content;
      Traced(c.corpus, c.ingest.links) && Seen(c.corpus) == Told(units)
  {
    hide Inv, Play, Traced, HistoryTells;
    InitialInv();
    InitialTraced();
    HistoryKeepsTraced(INITIAL_DB, units);
    assert forall s :: s !in Seen(EMPTY_CORPUS);
    assert forall s :: s in Seen(Reach(units).content.corpus) <==> s in Told(units);
  }

  // ---- the theorem

  ghost predicate Succeeded(g: Ingest, k: ItemKey) {
    k in g.items && g.items[k].refs.Some?
  }

  lemma {:induction false} ChainSharesPaper(x: Corpus, links: map<Place, Id>, s: seq<Place>)
    requires AllRecorded(x, links) && EvidenceAgrees(x, links) && s != [] && Chain(Seen(x), s)
    requires s[0] in links
    ensures s[|s| - 1] in links && PaperAt(x, links, s[|s| - 1]) == PaperAt(x, links, s[0])
  {
    hide Evident, IdsOf, PaperAt, VersionAt;
    if |s| > 1 {
      var p, q := s[|s| - 2], s[|s| - 1];
      ChainSharesPaper(x, links, s[..|s| - 1]);
      assert Shares(Seen(x), p, q);
      var key, scope :| Sighting(p, key, scope) in Seen(x) && Sighting(q, key, scope) in Seen(x);
      SameTargetSamePaper(x, links, p, q, key, scope);
    }
  }

  lemma SameTargetSamePaper(x: Corpus, links: map<Place, Id>, p: Place, q: Place, key: Key, scope: Scope)
    requires EvidenceAgrees(x, links)
    requires Evident(x, Sighting(p, key, scope)) && Evident(x, Sighting(q, key, scope))
    ensures Recorded(x, links, p) && Recorded(x, links, q)
    ensures PaperAt(x, links, p) == PaperAt(x, links, q)
    ensures scope == VersionScope ==> VersionAt(x, links, p) == VersionAt(x, links, q)
  {
    hide Recorded, Evident, IdsOf;
  }

  lemma SameVersionIffShared(x: Corpus, links: map<Place, Id>, p: Place, q: Place)
    requires Traced(x, links) && p in links && q in links
    ensures VersionAt(x, links, p) == VersionAt(x, links, q) <==> SharesVersion(Seen(x), p, q)
  {
    hide PapersAreConnected, BindingsAreShown, EvidenceAgrees;
    if VersionAt(x, links, p) == VersionAt(x, links, q) {
      var key := KeyOf(x.versions[VersionAt(x, links, p)]);
      assert ShowsOwnKey(x, links, p) && ShowsOwnKey(x, links, q);
      assert Sighting(p, key, VersionScope) in Seen(x) && Sighting(q, key, VersionScope) in Seen(x);
    }
    if SharesVersion(Seen(x), p, q) {
      var key :| Sighting(p, key, VersionScope) in Seen(x) && Sighting(q, key, VersionScope) in Seen(x);
      SameTargetSamePaper(x, links, p, q, key, VersionScope);
    }
  }

  lemma SamePaperIffConnected(x: Corpus, links: map<Place, Id>, p: Place, q: Place)
    requires Traced(x, links) && p in links && q in links
    ensures PaperAt(x, links, p) == PaperAt(x, links, q) <==> Connected(Seen(x), p, q)
  {
    hide Recorded, OwnKeysAreShown, BindingsAreShown, EvidenceAgrees, Seen;
    if Connected(Seen(x), p, q) {
      var s :| Joins(Seen(x), s, p, q);
      ChainSharesPaper(x, links, s);
    }
  }

  lemma RefsOfItem(c: Content, n: Id, k: ItemKey)
    requires Inv(c, n) && Succeeded(c.ingest, k)
    ensures Recorded(c.corpus, c.ingest.links, k.place)
    ensures c.ingest.items[k].refs.value.version == VersionAt(c.corpus, c.ingest.links, k.place)
    ensures c.ingest.items[k].refs.value.paper == PaperAt(c.corpus, c.ingest.links, k.place)
  {
    hide CorpusOk, BlobsOk, ShelfOk, FreshFrom, Conserved, SnapshotsOk, RunsOk, LinksOk, OriginsOk, ErrorsOk, StatusesOk;
    hide EvidenceOk;
    assert ItemOk(c.corpus, c.ingest, k);
  }

  /** After every history, two recorded items have one paper exactly when a chain of identifiers that committed
      records showed connects their places, and one version exactly when both showed some version identifier. */
  lemma OnePaperIffConnected(units: seq<seq<Call>>, a: ItemKey, b: ItemKey)
    requires ValidUnits(units)
    requires Succeeded(Reach(units).content.ingest, a) && Succeeded(Reach(units).content.ingest, b)
    ensures var r, t := Reach(units).content.ingest.items[a].refs.value, Reach(units).content.ingest.items[b].refs.value;
      && (r.paper == t.paper <==> Connected(Told(units), a.place, b.place))
      && (r.version == t.version <==> SharesVersion(Told(units), a.place, b.place))
  {
    hide Inv, Play, Reach, Traced, Connected, SharesVersion, Told, Recorded;
    ReachIsSound(units);
    EvidenceIsTold(units);
    var db := Reach(units);
    RefsOfItem(db.content, db.next, a);
    RefsOfItem(db.content, db.next, b);
    LinkedPlace(db.content, a);
    LinkedPlace(db.content, b);
    SamePaperIffConnected(db.content.corpus, db.content.ingest.links, a.place, b.place);
    SameVersionIffShared(db.content.corpus, db.content.ingest.links, a.place, b.place);
  }

  lemma LinkedPlace(c: Content, k: ItemKey)
    requires Recorded(c.corpus, c.ingest.links, k.place)
    ensures k.place in c.ingest.links
  {
  }

  // ---- lookups

  ghost predicate WasShown(seen: iset<Sighting>, key: Key, scope: Scope) {
    exists p :: Sighting(p, key, scope) in seen
  }

  lemma ShownMeansBound(x: Corpus, links: map<Place, Id>, key: Key)
    requires Traced(x, links)
    ensures key in x.paperIds <==> WasShown(Seen(x), key, PaperScope)
    ensures forall p :: Sighting(p, key, PaperScope) in Seen(x) ==>
              Recorded(x, links, p) && key in x.paperIds && x.paperIds[key] == PaperAt(x, links, p)
  {
    hide PapersAreConnected, OwnKeysAreShown, Recorded;
    if key in x.paperIds {
      assert key in IdsOf(x, PaperScope);
      assert IsShown(x, key, PaperScope);
      var p :| Evident(x, Sighting(p, key, PaperScope));
      assert Sighting(p, key, PaperScope) in Seen(x);
    }
    forall p | Sighting(p, key, PaperScope) in Seen(x)
      ensures Recorded(x, links, p) && key in x.paperIds && x.paperIds[key] == PaperAt(x, links, p)
    {
      assert Evident(x, Sighting(p, key, PaperScope));
    }
  }

  /** After every history, an arXiv identifier is found exactly when some committed record showed it as one of its
      paper, and then as the paper of every such record; it is never ambiguous. */
  lemma ArxivFindsItsPaper(units: seq<seq<Call>>, value: string)
    requires ValidUnits(units)
    ensures var c := Reach(units).content; var key := Key("arxiv", value);
      && IdentifiersResolve(c.corpus)
      && var found := ResolvePaper(c.corpus, ByArxiv(value));
      && (found.Found? <==> WasShown(Told(units), key, PaperScope)) && !found.Ambiguous?
      && forall k :: Succeeded(c.ingest, k) && Sighting(k.place, key, PaperScope) in Told(units) ==>
           found == Found(c.ingest.items[k].refs.value.paper)
  {
    hide Inv, Play, Reach, Traced, Told, Recorded, IdentifiersResolve, WasShown;
    ReachIsSound(units);
    EvidenceIsTold(units);
    var db := Reach(units);
    InvResolves(db.content, db.next);
    ShownMeansBound(db.content.corpus, db.content.ingest.links, Key("arxiv", value));
    forall k | Succeeded(db.content.ingest, k)
      ensures db.content.ingest.items[k].refs.Some? && Recorded(db.content.corpus, db.content.ingest.links, k.place)
      ensures db.content.ingest.items[k].refs.value.paper == PaperAt(db.content.corpus, db.content.ingest.links, k.place)
    {
      RefsOfItem(db.content, db.next, k);
    }
  }
}
