/** SqliteCatalogUnitOfWork and its repositories: the operations statement by statement, in one transaction. */
module UnitOfWork {
  import opened Base
  import opened CatalogSchema
  import Spec = CatalogSpec
  import opened CatalogSpec
  import opened CatalogInvariant
  import opened RecordProofs
  import opened RecordInvariant
  import opened PaperIdentity
  import opened RecordAnswers
  import opened RunProofs
  import opened CatalogGrowth
  import opened CatalogHistory
  import opened Statements
  import opened StatementProofs

  datatype Result<+T> = Ok(value: T) | Err(error: Error)

  class Session {
    /** The tables as the transaction sees them, and the next identifier of the generator. */
    var content: Content
    var next: Id
    var visible: bool
    /** The committed revision; nobody else commits while the transaction is open. */
    const revision: nat

    constructor (db: Db)
      ensures content == db.content && next == db.next && !visible && revision == db.revision
    {
      content, next, visible, revision := db.content, db.next, false, db.revision;
    }

    /** _revision_after_commit. */
    function RevisionAfterCommit(): nat
      reads this
    {
      if visible then revision + 1 else revision
    }

    method NewId() returns (id: Id)
      modifies this`next
      ensures id == old(next) && next == old(next) + 1
    {
      id := next;
      next := next + 1;
    }

    method EnsureBlob(ref: BlobRef, now: Time) returns (ok: bool)
      requires ref.mediaType != ""
      modifies this`content
      ensures match Spec.EnsureBlob(old(content.blobs), ref, now)
        case None => !ok && content == old(content)
        case Some(blobs) => ok && content == old(content).(blobs := blobs)
    {
      if ref.sha in content.blobs {
        return SameBlob(content.blobs[ref.sha], ref);
      }
      content := InsertBlob(content, ref.sha, BlobRow(ref.size, ref.mediaType, ref.path, now));
      return true;
    }

    /** _identifier_targets. */
    method IdentifierTargets(table: map<Key, Id>, keys: seq<Key>) returns (targets: set<Id>)
      ensures targets == Targets(table, keys)
    {
      targets := {};
      for i := 0 to |keys|
        invariant targets == Targets(table, keys[..i])
      {
        assert keys[..i + 1] == keys[..i] + [keys[i]];
        TargetsGrow(table, keys[..i], keys[i]);
        if keys[i] in table {
          targets := targets + {table[keys[i]]};
        }
      }
      assert keys[..|keys|] == keys;
    }

    /** Which paper and version the observation belongs to; None is a conflict. */
    method Resolve(o: Observed) returns (t: Option<Target>)
      requires VersionsResolve(content.corpus)
      ensures t == ResolveTarget(content.corpus, o, next)
      ensures t.Some? ==>
        && (t.value.newVersion <==> Key(o.source, o.versionKey) !in content.corpus.versionIndex)
        && (t.value.newPaper <==> t.value.newVersion && !PaperIsKnown(content.corpus, o))
    {
      hide Shows;
      if ResolveTarget(content.corpus, o, next).Some? {
        ResolvedPaper(content.corpus, o, next);
      }
      var papers := IdentifierTargets(content.corpus.paperIds, PaperKeys(o));
      if |papers| > 1 {
        ManyTargets(papers);
        return None;
      }
      FewTargets(papers);
      var versions := IdentifierTargets(content.corpus.versionIds, VersionKeys(o));
      if |versions| > 1 {
        ManyTargets(versions);
        return None;
      }
      FewTargets(versions);
      var key := Key(o.source, o.versionKey);
      if key in content.corpus.versionIndex {
        var version := content.corpus.versionIndex[key];
        var paper := content.corpus.versions[version].paper;
        if papers != {} && papers != {paper} {
          return None;
        }
        if versions != {} && versions != {version} {
          return None;
        }
        return Some(Target(paper, false, version, false, next));
      }
      if versions != {} {
        return None;
      }
      if papers != {} {
        var paper :| paper in papers;
        return Some(Target(paper, false, next, true, next + 1));
      }
      return Some(Target(next + 1, true, next, true, next + 2));
    }

    /** The paper and version rows of a resolved target. */
    method InsertIdentity(t: Target, cmd: RecordCommand, now: Time)
      requires Ready(content, cmd, next, t) && ValidObserved(cmd.observed)
      modifies this`content, this`next
      ensures next == t.next && content == WithIdentity(old(content), t, cmd.observed, now)
    {
      hide Ready, VersionFits;
      var o := cmd.observed;
      ghost var c := content;
      if t.newPaper {
        NewPaperFits(c, cmd, next, t);
        content := InsertPaper(content, t.paper, now);
      }
      if t.newVersion {
        VersionRowFits(c, cmd, next, t, now);
        content := DemoteCurrent(content, t.paper, o.source);
        content := InsertVersion(content, t.version, VersionRow(t.paper, o.source, o.versionKey, true, now));
      }
      next := t.next;
    }

    /** _record_observation_children: the authors. */
    method InsertAuthors(observation: Id, authors: seq<Author>)
      requires observation in content.corpus.observations
      requires observation in content.corpus.authors && content.corpus.authors[observation] == []
      requires forall i :: 0 <= i < |authors| ==> authors[i].rawName != ""
      modifies this`content, this`next
      ensures next == old(next) + |authors|
      ensures content == old(content).(corpus := old(content.corpus).(
        authors := old(content.corpus.authors)[observation := AuthorRows(authors, old(next))]))
    {
      ghost var c, n := content, next;
      assert AuthorRows(authors, n)[..0] == [] && c.corpus.authors[observation := []] == c.corpus.authors;
      for i := 0 to |authors|
        invariant next == n + i
        invariant content == c.(corpus := c.corpus.(authors := c.corpus.authors[observation := AuthorRows(authors, n)[..i]]))
      {
        var author := NewId();
        content := InsertAuthor(content, observation, AuthorRow(author, authors[i]));
        assert AuthorRows(authors, n)[..i] + [AuthorRow(n + i, authors[i])] == AuthorRows(authors, n)[..i + 1];
      }
      assert AuthorRows(authors, n)[..|authors|] == AuthorRows(authors, n);
    }

    /** _record_observation_children: the categories; a repeated one is an integrity error. */
    method InsertCategories(observation: Id, categories: seq<Category>) returns (ok: bool)
      requires observation in content.corpus.observations
      requires observation in content.corpus.categories && content.corpus.categories[observation] == []
      requires forall i :: 0 <= i < |categories| ==> categories[i].value != ""
      modifies this`content
      ensures ok <==> DistinctValues(categories)
      ensures ok ==> content == old(content).(corpus := old(content.corpus).(
        categories := old(content.corpus.categories)[observation := categories]))
    {
      ghost var c := content;
      assert c.corpus.categories[observation := []] == c.corpus.categories;
      for i := 0 to |categories|
        invariant content == c.(corpus := c.corpus.(categories := c.corpus.categories[observation := categories[..i]]))
        invariant DistinctValues(categories[..i])
      {
        CategoryTaken(categories, i);
        var inserted := InsertCategory(content, observation, categories[i]);
        if inserted.None? {
          return false;
        }
        content := inserted.value;
      }
      assert categories[..|categories|] == categories;
      return true;
    }

    /** The row of a new observation with its authors and categories. */
    method InsertObserved(t: Target, cmd: RecordCommand, now: Time) returns (ok: bool)
      requires ObservationFits(content, next, RowOf(t, cmd, now)) && ValidObserved(cmd.observed)
      modifies this`content, this`next
      ensures ok <==> Storable(cmd.observed)
      ensures ok ==>
        && content == old(content).(corpus := AddObservation(old(content.corpus), old(next), t, cmd, now))
        && next == old(next) + 1 + |cmd.observed.authors|
    {
      hide ObservationFits;
      var o := cmd.observed;
      ghost var corpus, n := content.corpus, next;
      var id := NewId();
      var row := ObservationRow(t.version, o.sha, now, o.source, cmd.key, o.metadata);
      assert row == RowOf(t, cmd, now);
      var inserted := InsertObservation(content, id, row);
      if inserted.None? {
        return false;
      }
      content := inserted.value;
      InsertAuthors(id, o.authors);
      ok := InsertCategories(id, o.categories);
      assert corpus.authors[n := []][n := AuthorRows(o.authors, n + 1)] == corpus.authors[n := AuthorRows(o.authors, n + 1)];
      assert corpus.categories[n := []][n := o.categories] == corpus.categories[n := o.categories];
    }

    /** The observation of the target version with this digest, or its row, children, blob and artifact. */
    method ObserveVersion(t: Target, cmd: RecordCommand, now: Time, ghost c: Content, ghost n: Id)
      returns (r: Result<Observation>)
      requires Inv(c, n) && Ready(c, cmd, n, t) && ValidRecord(cmd)
      requires content == WithIdentity(c, t, cmd.observed, now) && next == t.next
      modifies this`content, this`next
      ensures match Observe(old(content), t, cmd, now)
        case Raised(e) => r == Err(e)
        case Done(c2, n2, x) => r == Ok(x) && content == c2 && next == n2
    {
      hide Inv, Ready, ObservationFits, ArtifactFits, ValidObserved, WithIdentity, Storable, AuthorRows, Blank, AddObservation;
      var o := cmd.observed;
      var key := ObservationKey(t.version, o.sha);
      IdentityKeepsObservations(c, t, o, now);
      if key in content.corpus.observationIndex {
        return Ok(Observation(content.corpus.observationIndex[key], Unchanged));
      }
      ObservationRowFits(c, cmd, n, t, now);
      ObservedValues(cmd);
      var observation := next;
      AddedObservation(content.corpus, observation, t, cmd, now);
      var inserted := InsertObserved(t, cmd, now);
      if !inserted {
        return Err(IntegrityViolation);
      }
      var stored := EnsureBlob(cmd.blob, now);
      if !stored {
        return Err(CatalogConflict);
      }
      var artifact := NewId();
      NewArtifactFits(c, cmd, n, t, now, content, artifact);
      content := InsertArtifact(
        content, artifact, ArtifactRow(t.version, observation, cmd.blob.sha, o.metadata.sourceUrl, now));
      return Ok(Observation(observation, if t.newVersion then NewVersion else MetadataUpdate));
    }

    /** One identifier and its evidence. The check of the target after the insert cannot fail. */
    method BindPaperKey(key: Key, paper: Id, place: Place, row: EvidenceRow)
      requires key.scheme != "" && key.value != "" && paper in content.corpus.papers
      requires key in content.corpus.paperIds ==> content.corpus.paperIds[key] == paper
      requires WitnessPlace(content.sources, content.ingest, place, row.source)
      modifies this`content
      ensures content == old(content).(corpus := old(content.corpus).(
        paperIds := Put(old(content.corpus.paperIds), key, paper),
        paperEvidence := Put(old(content.corpus.paperEvidence), EvidenceKey(key, place), row)))
    {
      hide EvidenceFits, WitnessPlace;
      content := InsertPaperIdentifier(content, key, paper);
      assert content.corpus.paperIds[key] == paper;
      WitnessFits(content, content.corpus.paperIds, EvidenceKey(key, place), row);
      content := InsertPaperEvidence(content, EvidenceKey(key, place), row);
    }

    /** _record_identifiers for the paper table. */
    method BindPaperKeys(keys: seq<Key>, paper: Id, place: Place, source: SourceId, now: Time)
      requires AllNamed(keys) && paper in content.corpus.papers && BoundTo(content.corpus.paperIds, keys, paper)
      requires WitnessPlace(content.sources, content.ingest, place, source)
      modifies this`content
      ensures content == old(content).(corpus := old(content.corpus).(
        paperIds := Bind(old(content.corpus.paperIds), keys, paper),
        paperEvidence := Witness(old(content.corpus.paperEvidence), keys, place, EvidenceRow(source, now))))
    {
      hide Bind, Witness, BoundTo, AllNamed;
      ghost var c := content;
      var row := EvidenceRow(source, now);
      NothingBound(c.corpus.paperIds, keys, paper);
      NothingWitnessed(c.corpus.paperEvidence, keys, place, row);
      for i := 0 to |keys|
        invariant content == c.(corpus := c.corpus.(
          paperIds := Bind(c.corpus.paperIds, keys[..i], paper),
          paperEvidence := Witness(c.corpus.paperEvidence, keys[..i], place, row)))
      {
        KeyIsNamed(keys, i);
        BindGrows(c.corpus.paperIds, keys, i, paper);
        WitnessGrows(c.corpus.paperEvidence, keys, i, place, row);
        BindReaches(c.corpus.paperIds, keys, i, paper);
        BindPaperKey(keys[i], paper, place, row);
      }
      assert keys[..|keys|] == keys;
    }

    /** One identifier and its evidence. The check of the target after the insert cannot fail. */
    method BindVersionKey(key: Key, version: Id, place: Place, row: EvidenceRow)
      requires key.scheme != "" && key.value != "" && version in content.corpus.versions
      requires key in content.corpus.versionIds ==> content.corpus.versionIds[key] == version
      requires WitnessPlace(content.sources, content.ingest, place, row.source)
      modifies this`content
      ensures content == old(content).(corpus := old(content.corpus).(
        versionIds := Put(old(content.corpus.versionIds), key, version),
        versionEvidence := Put(old(content.corpus.versionEvidence), EvidenceKey(key, place), row)))
    {
      hide EvidenceFits, WitnessPlace;
      content := InsertVersionIdentifier(content, key, version);
      assert content.corpus.versionIds[key] == version;
      WitnessFits(content, content.corpus.versionIds, EvidenceKey(key, place), row);
      content := InsertVersionEvidence(content, EvidenceKey(key, place), row);
    }

    /** _record_identifiers for the version table. */
    method BindVersionKeys(keys: seq<Key>, version: Id, place: Place, source: SourceId, now: Time)
      requires AllNamed(keys) && version in content.corpus.versions && BoundTo(content.corpus.versionIds, keys, version)
      requires WitnessPlace(content.sources, content.ingest, place, source)
      modifies this`content
      ensures content == old(content).(corpus := old(content.corpus).(
        versionIds := Bind(old(content.corpus.versionIds), keys, version),
        versionEvidence := Witness(old(content.corpus.versionEvidence), keys, place, EvidenceRow(source, now))))
    {
      hide Bind, Witness, BoundTo, AllNamed;
      ghost var c := content;
      var row := EvidenceRow(source, now);
      NothingBound(c.corpus.versionIds, keys, version);
      NothingWitnessed(c.corpus.versionEvidence, keys, place, row);
      for i := 0 to |keys|
        invariant content == c.(corpus := c.corpus.(
          versionIds := Bind(c.corpus.versionIds, keys[..i], version),
          versionEvidence := Witness(c.corpus.versionEvidence, keys[..i], place, row)))
      {
        KeyIsNamed(keys, i);
        BindGrows(c.corpus.versionIds, keys, i, version);
        WitnessGrows(c.corpus.versionEvidence, keys, i, place, row);
        BindReaches(c.corpus.versionIds, keys, i, version);
        BindVersionKey(keys[i], version, place, row);
      }
      assert keys[..|keys|] == keys;
    }

    /** The link of the record, its identifiers and its item. The check of the linked observation cannot fail. */
    method CompleteItem(t: Target, x: Observation, cmd: RecordCommand, now: Time) returns (item: ItemRow)
      requires Completable(content, t, x, cmd)
      modifies this`content
      ensures Done(content, next, item) == Complete(old(content), next, t, x, cmd, now)
    {
      hide Completable, Bind, Witness, ItemFits, AllNamed, WitnessPlace, ScopedKeys;
      var o := cmd.observed;
      ghost var c := content;
      CompletableLink(c, t, x, cmd);
      if cmd.key.place !in content.ingest.links {
        content := LinkRecord(content, cmd.key.place, x.id);
      }
      assert content.ingest.links[cmd.key.place] == x.id;
      ghost var linked := content;
      assert linked == c.(ingest := c.ingest.(links := c.ingest.links[cmd.key.place := x.id]));
      CompletableKeys(c, linked, t, x, cmd);
      BindPaperKeys(PaperKeys(o), t.paper, cmd.key.place, o.source, now);
      BindVersionKeys(VersionKeys(o), t.version, cmd.key.place, o.source, now);
      item := ItemRow(x.outcome, Some(Refs(t.paper, t.version, x.id)), t.newPaper, now);
      CompletableItem(c, content, t, x, cmd, item);
      content := InsertItem(content, cmd.key, item);
    }

    /** Every early check of record_item; an error, or the target of the writes. */
    method Admit(cmd: RecordCommand) returns (r: Result<Target>)
      requires Inv(content, next) && ValidRecord(cmd) && Resolves(content)
      requires IsSelected(content.ingest, cmd.key) && cmd.key !in content.ingest.items
      ensures r.Err? ==> r.error == CatalogConflict && !Passes(content, cmd, next)
      ensures r.Ok? ==> Passes(content, cmd, next) && ResolveTarget(content.corpus, cmd.observed, next) == Some(r.value)
    {
      hide Inv, ValidRecord, ResolveTarget, SelectedRecord, Admitted, LinkAgrees, CapturesResolve, SelectionResolves;
      var s := SelectedRecord(content.ingest, cmd.key);
      LinkOfSelected(content, cmd.key);
      if !Admitted(s, cmd.observed) {
        return Err(CatalogConflict);
      }
      if s.link.Some? && !LinkAgrees(content.corpus, s.link.value, cmd.observed) {
        return Err(CatalogConflict);
      }
      var t := Resolve(cmd.observed);
      return if t.Some? then Ok(t.value) else Err(CatalogConflict);
    }

    /** record_item. An operation that raises may have written rows, but has not marked the unit visible. */
    method RecordItem(cmd: RecordCommand, now: Time) returns (r: Result<ItemRow>)
      requires Inv(content, next) && ValidRecord(cmd)
      modifies this
      ensures Resolves(old(content))
      ensures match Spec.RecordItem(old(content), cmd, old(next), now)
        case Raised(e) => r == Err(e) && visible == old(visible)
        case Done(c, n, item) =>
          && r == Ok(item) && content == c && next == n
          && visible == (old(visible) || cmd.key !in old(content.ingest.items))
      ensures r.Ok? && cmd.key !in old(content.ingest.items) ==>
        OutcomeAnswers(old(content.corpus), cmd.observed, r.value, now)
    {
      hide OutcomeAnswers, Inv, ValidRecord, ResolveTarget, SelectedRecord, Admitted, LinkAgrees, Resolves, Passes, Ready, Completable;
      hide Observe, Complete, WithIdentity, BoundTo;
      InvResolves(content, next);
      ghost var c, n := content, next;
      RecordSteps(c, cmd, n, now);
      if cmd.key !in c.ingest.items {
        RecordAnswersOutcome(c, cmd, n, now);
      }
      if !IsSelected(content.ingest, cmd.key) {
        return Err(CatalogConflict);
      }
      if cmd.key in content.ingest.items {
        ItemsHaveObservations(c);
        var item := content.ingest.items[cmd.key];
        if item.outcome == FailedItem || content.corpus.observations[item.refs.value.observation].sha != cmd.observed.sha {
          return Err(CatalogConflict);
        }
        return Ok(item);
      }
      var admitted := Admit(cmd);
      if admitted.Err? {
        return Err(CatalogConflict);
      }
      var t := admitted.value;
      EarlyChecks(c, cmd, n);
      CommandIsValid(cmd);
      InsertIdentity(t, cmd, now);
      var observed := ObserveVersion(t, cmd, now, c, n);
      if observed.Err? {
        return Err(observed.error);
      }
      ObservedIsCompletable(c, n, t, cmd, now);
      var item := CompleteItem(t, observed.value, cmd, now);
      visible := true;
      return Ok(item);
    }
  }

  lemma CommandIsValid(cmd: RecordCommand)
    requires ValidRecord(cmd)
    ensures ValidObserved(cmd.observed)
  {
  }

  lemma LinkOfSelected(c: Content, key: ItemKey)
    requires Resolves(c) && IsSelected(c.ingest, key)
    ensures var link := SelectedRecord(c.ingest, key).link;
      && (link.Some? <==> key.place in c.ingest.links) && (link.Some? ==> link.value == c.ingest.links[key.place])
      && (link.Some? ==>
            link.value in c.corpus.observations && c.corpus.observations[link.value].version in c.corpus.versions)
  {
  }

  lemma ItemsHaveObservations(c: Content)
    requires Resolves(c)
    ensures forall k :: k in c.ingest.items && c.ingest.items[k].outcome != FailedItem ==>
      c.ingest.items[k].refs.Some? && c.ingest.items[k].refs.value.observation in c.corpus.observations
  {
  }

  /** The specification of record_item, branch by branch. */
  lemma RecordSteps(c: Content, cmd: RecordCommand, n: Id, now: Time)
    requires Resolves(c)
    ensures var r := Spec.RecordItem(c, cmd, n, now);
      && (!IsSelected(c.ingest, cmd.key) ==> r == Raised(CatalogConflict))
      && (IsSelected(c.ingest, cmd.key) && cmd.key !in c.ingest.items && !Passes(c, cmd, n) ==> r == Raised(CatalogConflict))
      && (Passes(c, cmd, n) ==> r == AbsorbSteps(c, ResolveTarget(c.corpus, cmd.observed, n).value, cmd, now))
  {
    hide ResolveTarget, SelectionResolves, ItemsResolve, CapturesResolve, Observe, Complete, Admitted, LinkAgrees;
  }

  function AbsorbSteps(c: Content, t: Target, cmd: RecordCommand, now: Time): Step<ItemRow> {
    match Observe(WithIdentity(c, t, cmd.observed, now), t, cmd, now)
    case Raised(e) => Raised(e)
    case Done(c2, n2, x) => Complete(c2, n2, t, x, cmd, now)
  }

  lemma ObservedIsCompletable(c: Content, n: Id, t: Target, cmd: RecordCommand, now: Time)
    requires Inv(c, n) && Ready(c, cmd, n, t) && ValidRecord(cmd)
    requires BoundTo(c.corpus.paperIds, PaperKeys(cmd.observed), t.paper)
    requires BoundTo(c.corpus.versionIds, VersionKeys(cmd.observed), t.version)
    ensures var r := Observe(WithIdentity(c, t, cmd.observed, now), t, cmd, now);
      r.Done? ==> Completable(r.content, t, r.value, cmd)
  {
    hide BlobsOk, IngestOk, ShelfOk, Conserved, FreshFrom, CurrentOk, VersionsOk, EveryVersionObserved, ChildrenOk, ArtifactsOk;
    hide IdentifiersOk, ValidObserved, PaperKeys, VersionKeys, Storable, Spec.EnsureBlob;
    var key := ObservationKey(t.version, cmd.observed.sha);
    if key in c.corpus.observationIndex {
      var x := c.corpus.observationIndex[key];
      assert KeyOfObservation(c.corpus.observations[x]) == key;
    }
  }

  lemma WitnessFits(c: Content, ids: map<Key, Id>, e: EvidenceKey, row: EvidenceRow)
    requires e.key in ids && WitnessPlace(c.sources, c.ingest, e.place, row.source)
    ensures EvidenceFits(c, ids, e, row)
  {
  }

  ghost predicate AllNamed(keys: seq<Key>) {
    forall i :: 0 <= i < |keys| ==> keys[i].scheme != "" && keys[i].value != ""
  }

  lemma KeyIsNamed(keys: seq<Key>, i: nat)
    requires AllNamed(keys) && i < |keys|
    ensures keys[i].scheme != "" && keys[i].value != ""
  {
  }

  lemma BindReaches(table: map<Key, Id>, keys: seq<Key>, i: nat, target: Id)
    requires BoundTo(table, keys, target) && i < |keys|
    ensures keys[i] in Bind(table, keys[..i + 1], target) && Bind(table, keys[..i + 1], target)[keys[i]] == target
  {
    assert keys[..i + 1][i] == keys[i];
  }

  /** Where evidence may be recorded: the foreign keys of the evidence tables. */
  ghost predicate WitnessPlace(sources: set<SourceId>, g: Ingest, place: Place, source: SourceId) {
    && source in sources && place.snapshot in g.records && place.ordinal < |g.records[place.snapshot]|
    && place.snapshot in g.snapshots && g.snapshots[place.snapshot].source == source
  }

  /** What holds once the observation of the target is there. */
  ghost predicate Completable(c: Content, t: Target, x: Observation, cmd: RecordCommand) {
    var o := cmd.observed;
    && ValidObserved(o) && WitnessPlace(c.sources, c.ingest, cmd.key.place, o.source)
    && t.paper in c.corpus.papers && t.version in c.corpus.versions && c.corpus.versions[t.version].paper == t.paper
    && c.corpus.versions[t.version].source == o.source
    && x.id in c.corpus.observations && c.corpus.observations[x.id].version == t.version
    && c.corpus.observations[x.id].source == o.source
    && x.outcome != FailedItem && (t.newPaper ==> x.outcome == NewVersion)
    && (cmd.key.place in c.ingest.links ==> c.ingest.links[cmd.key.place] == x.id)
    && BoundTo(c.corpus.paperIds, PaperKeys(o), t.paper) && BoundTo(c.corpus.versionIds, VersionKeys(o), t.version)
    && cmd.key !in c.ingest.items && IsSelected(c.ingest, cmd.key) && cmd.key.run in c.ingest.runs
    && c.ingest.runs[cmd.key.run].source == o.source
  }

  lemma CompletableLink(c: Content, t: Target, x: Observation, cmd: RecordCommand)
    requires Completable(c, t, x, cmd)
    ensures cmd.key.place in c.ingest.links ==> c.ingest.links[cmd.key.place] == x.id
    ensures var p := cmd.key.place;
      && p.snapshot in c.ingest.records && p.ordinal < |c.ingest.records[p.snapshot]| && p.snapshot in c.ingest.snapshots
      && x.id in c.corpus.observations
      && c.ingest.snapshots[p.snapshot].source == c.corpus.observations[x.id].source
  {
  }

  lemma {:induction false} ScopedKeysNamed(ids: seq<ObservedIdentifier>, scope: Scope)
    requires forall i :: 0 <= i < |ids| ==> ids[i].key.scheme != "" && ids[i].key.value != ""
    ensures AllNamed(ScopedKeys(ids, scope))
  {
    if ids != [] {
      ScopedKeysNamed(ids[1..], scope);
    }
  }

  lemma CompletableKeys(c: Content, linked: Content, t: Target, x: Observation, cmd: RecordCommand)
    requires Completable(c, t, x, cmd)
    requires linked == c.(ingest := c.ingest.(links := linked.ingest.links))
    ensures var o := cmd.observed;
      && AllNamed(PaperKeys(o)) && AllNamed(VersionKeys(o))
      && t.paper in linked.corpus.papers && t.version in linked.corpus.versions
      && BoundTo(linked.corpus.paperIds, PaperKeys(o), t.paper)
      && BoundTo(linked.corpus.versionIds, VersionKeys(o), t.version)
      && WitnessPlace(linked.sources, linked.ingest, cmd.key.place, o.source)
  {
    hide ScopedKeys;
    ScopedKeysNamed(cmd.observed.identifiers, PaperScope);
    ScopedKeysNamed(cmd.observed.identifiers, VersionScope);
  }

  lemma CompletableItem(c: Content, after: Content, t: Target, x: Observation, cmd: RecordCommand, item: ItemRow)
    requires Completable(c, t, x, cmd)
    requires after.ingest == c.ingest.(links := after.ingest.links)
    requires after.corpus.papers == c.corpus.papers && after.corpus.versions == c.corpus.versions
    requires after.corpus.observations == c.corpus.observations
    requires item.outcome == x.outcome && item.refs == Some(Refs(t.paper, t.version, x.id)) && item.createdPaper == t.newPaper
    ensures ItemFits(after, cmd.key, item)
  {
  }

  lemma IdentityKeepsObservations(c: Content, t: Target, o: Observed, now: Time)
    ensures var d := WithIdentity(c, t, o, now);
      && d.corpus.observations == c.corpus.observations && d.corpus.observationIndex == c.corpus.observationIndex
      && d.corpus.artifacts == c.corpus.artifacts && d.blobs == c.blobs
      && (IsNewObservation(c, t, o) <==> ObservationKey(t.version, o.sha) !in d.corpus.observationIndex)
  {
  }

  lemma ObservedValues(cmd: RecordCommand)
    requires ValidRecord(cmd)
    ensures ValidObserved(cmd.observed) && cmd.blob.sha == cmd.observed.sha
    ensures forall i :: 0 <= i < |cmd.observed.authors| ==> cmd.observed.authors[i].rawName != ""
    ensures forall i :: 0 <= i < |cmd.observed.categories| ==> cmd.observed.categories[i].value != ""
  {
  }

  lemma AddedObservation(x: Corpus, id: Id, t: Target, cmd: RecordCommand, now: Time)
    ensures var y := AddObservation(x, id, t, cmd, now);
      y.artifacts == x.artifacts && id in y.observations && y.observations[id] == RowOf(t, cmd, now)
  {
  }

  lemma NewArtifactFits(c: Content, cmd: RecordCommand, n: Id, t: Target, now: Time, after: Content, id: Id)
    requires Inv(c, n) && Ready(c, cmd, n, t) && IsNewObservation(c, t, cmd.observed) && cmd.blob.sha == cmd.observed.sha
    requires after.corpus.artifacts == c.corpus.artifacts && id == t.next + 1 + |cmd.observed.authors|
    requires cmd.blob.sha in after.blobs
    requires t.next in after.corpus.observations && after.corpus.observations[t.next] == RowOf(t, cmd, now)
    ensures ArtifactFits(after, id, ArtifactOf(t, cmd, t.next, now))
  {
    hide ObservationsOk, ArtifactsOk, IngestOk, BlobsOk, Conserved, ShelfOk, VersionsOk, CurrentOk, IdentifiersOk, ChildrenOk;
    ArtifactRowFits(c, cmd, n, t, now, after, id);
  }

  lemma TargetsGrow(table: map<Key, Id>, keys: seq<Key>, key: Key)
    ensures Targets(table, keys + [key]) == Targets(table, keys) + if key in table then {table[key]} else {}
  {
    var all := keys + [key];
    forall x | x in Targets(table, keys)
      ensures x in Targets(table, all)
    {
      var i :| 0 <= i < |keys| && keys[i] in table && table[keys[i]] == x;
      assert all[i] == keys[i];
    }
    if key in table {
      assert all[|keys|] == key;
    }
  }

  lemma ManyTargets(s: set<Id>)
    requires |s| > 1
    ensures !AtMostOne(s)
  {
    var x :| x in s;
    assert |s - {x}| > 0;
    var y :| y in s - {x};
  }

  lemma FewTargets(s: set<Id>)
    requires |s| <= 1
    ensures AtMostOne(s) && forall x :: x in s ==> s == {x} && Any(s) == x
  {
    forall x | x in s
      ensures s == {x}
    {
      if s != {x} {
        var y :| y in s && y != x;
        assert {x, y} <= s;
        SubsetCount({x, y}, s);
      }
    }
  }

  lemma NewPaperFits(c: Content, cmd: RecordCommand, n: Id, t: Target)
    requires Ready(c, cmd, n, t) && t.newPaper
    ensures t.paper !in c.corpus.papers
  {
  }

  lemma CategoryTaken(categories: seq<Category>, i: nat)
    requires i < |categories| && DistinctValues(categories[..i])
    ensures HasCategory(categories[..i], categories[i].value) <==> !DistinctValues(categories[..i + 1])
    ensures !DistinctValues(categories[..i + 1]) ==> !DistinctValues(categories)
    ensures categories[..i] + [categories[i]] == categories[..i + 1]
  {
    var upto := categories[..i + 1];
    if HasCategory(categories[..i], categories[i].value) {
      var k :| 0 <= k < i && categories[..i][k].value == categories[i].value;
      assert upto[k].value == upto[i].value;
    } else {
      forall a, b | 0 <= a < b < |upto|
        ensures upto[a].value != upto[b].value
      {
        assert categories[..i][a] == upto[a];
        if b < i {
          assert categories[..i][b] == upto[b];
        }
      }
    }
    if !DistinctValues(upto) {
      var a, b :| 0 <= a < b < |upto| && upto[a].value == upto[b].value;
      assert categories[a].value == categories[b].value;
    }
  }
}
