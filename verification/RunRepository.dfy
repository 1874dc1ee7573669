/** attach_prepared_run, record_failure, finalize_run and repair_interrupted_run, statement by statement. */
module RunRepository {
  import opened Base
  import opened CatalogSchema
  import Spec = CatalogSpec
  import opened CatalogSpec
  import opened CatalogInvariant
  import opened RunProofs
  import opened Statements
  import opened UnitOfWork

  // ---- attaching pages

  ghost predicate PagesReady(s: Session)
    reads s
  {
    && BlobsOk(s.content.blobs) && CapturesResolve(s.content) && SnapshotTablesOk(s.content)
    && Below(s.content.ingest.snapshots, s.next)
  }

  /** A new snapshot with its records; false is an integrity error. */
  method InsertPage(s: Session, source: SourceId, page: PageAttachment) returns (ok: bool)
    requires s.next !in s.content.ingest.snapshots && page.capture !in s.content.ingest.captures
    requires page.blob.sha in s.content.blobs
    modifies s`content, s`next
    ensures ok <==> source in old(s.content.sources)
    ensures ok ==>
      && s.next == old(s.next) + 1
      && s.content == old(s.content).(ingest := old(s.content.ingest).(
           snapshots := old(s.content.ingest.snapshots)[old(s.next) := SnapshotRow(
             page.capture, source, page.blob.sha, page.fingerprint, page.retrievedAt, page.nextCursor)],
           captures := old(s.content.ingest.captures)[page.capture := old(s.next)],
           records := old(s.content.ingest.records)[old(s.next) := page.records]))
  {
    ghost var g, n := s.content.ingest, s.next;
    var snapshot := s.NewId();
    var row := SnapshotRow(page.capture, source, page.blob.sha, page.fingerprint, page.retrievedAt, page.nextCursor);
    var inserted := InsertSnapshot(s.content, snapshot, row);
    if inserted.None? {
      return false;
    }
    s.content := inserted.value;
    ghost var c := s.content;
    assert c.ingest.records[snapshot := page.records[..0]] == c.ingest.records;
    for i := 0 to |page.records|
      invariant s.next == n + 1
      invariant s.content == c.(ingest := c.ingest.(records := c.ingest.records[snapshot := page.records[..i]]))
    {
      assert page.records[..i] + [page.records[i]] == page.records[..i + 1];
      s.content := InsertSnapshotRecord(s.content, snapshot, page.records[i]);
    }
    assert page.records[..|page.records|] == page.records;
    assert g.records[n := []][n := page.records] == g.records[n := page.records];
    return true;
  }

  /** _blob_for_capture, _ensure_blob and _attach_snapshot. */
  method AttachPage(s: Session, source: SourceId, page: PageAttachment, now: Time) returns (r: Result<Id>)
    requires CapturesResolve(s.content) && s.next !in s.content.ingest.snapshots && page.blob.mediaType != ""
    modifies s`content, s`next
    ensures match Spec.AttachPage(old(s.content), source, page, old(s.next), now)
      case Raised(e) => r == Err(e)
      case Done(c, n, id) => r == Ok(id) && s.content == c && s.next == n
  {
    hide SameSnapshot;
    if page.capture in s.content.ingest.captures {
      var snapshot := s.content.ingest.captures[page.capture];
      var sha := s.content.ingest.snapshots[snapshot].blob;
      if sha != page.blob.sha || !SameBlob(s.content.blobs[sha], page.blob) {
        return Err(CatalogConflict);
      }
      if !SameSnapshot(s.content.ingest, snapshot, source, page) {
        return Err(CatalogConflict);
      }
      return Ok(snapshot);
    }
    var stored := s.EnsureBlob(page.blob, now);
    if !stored {
      return Err(CatalogConflict);
    }
    var snapshot := s.next;
    var inserted := InsertPage(s, source, page);
    return if inserted then Ok(snapshot) else Err(IntegrityViolation);
  }

  lemma NextPageReady(c: Content, source: SourceId, page: PageAttachment, n: Id, now: Time)
    requires BlobsOk(c.blobs) && CapturesResolve(c) && SnapshotTablesOk(c) && Below(c.ingest.snapshots, n)
    requires StoredRef(page.blob)
    ensures n !in c.ingest.snapshots
    ensures var r := Spec.AttachPage(c, source, page, n, now);
      r.Done? ==> BlobsOk(r.content.blobs) && CapturesResolve(r.content) && SnapshotTablesOk(r.content)
                  && Below(r.content.ingest.snapshots, r.next)
  {
    hide Spec.AttachPage;
    AttachPageGrows(c, source, page, n, now);
    AttachPageKeepsTables(c, source, page, n, now);
    var r := Spec.AttachPage(c, source, page, n, now);
    if r.Done? {
      TablesResolve(r.content);
    }
  }

  lemma TablesResolve(c: Content)
    requires SnapshotTablesOk(c)
    ensures CapturesResolve(c)
  {
    forall k | k in c.ingest.captures
      ensures c.ingest.captures[k] in c.ingest.records
    {
      assert c.ingest.captures[k] in c.ingest.records.Keys;
    }
  }

  /** The loop over the pages of a command. */
  method AttachPages(s: Session, cmd: AttachCommand, now: Time) returns (r: Result<seq<Id>>)
    requires PagesReady(s) && ValidAttach(cmd)
    modifies s`content, s`next
    ensures match Spec.AttachPages(old(s.content), cmd, |cmd.pages|, old(s.next), now)
      case Raised(e) => r == Err(e)
      case Done(c, n, ids) => r == Ok(ids) && s.content == c && s.next == n
  {
    hide Spec.AttachPage, CapturesResolve, SnapshotTablesOk, BlobsOk, Below;
    ghost var c, n := s.content, s.next;
    var ids: seq<Id> := [];
    for i := 0 to |cmd.pages|
      invariant PagesReady(s) && Spec.AttachPages(c, cmd, i, n, now) == Done(s.content, s.next, ids)
    {
      NextPageReady(s.content, cmd.source, cmd.pages[i], s.next, now);
      var attached := AttachPage(s, cmd.source, cmd.pages[i], now);
      if attached.Err? {
        RaisesAtPage(c, cmd, i + 1, n, now);
        return Err(attached.error);
      }
      ids := ids + [attached.value];
    }
    return Ok(ids);
  }

  lemma {:induction false} RaisesAtPage(c: Content, cmd: AttachCommand, k: nat, n: Id, now: Time)
    requires CapturesResolve(c) && k <= |cmd.pages| && Spec.AttachPages(c, cmd, k, n, now).Raised?
    ensures Spec.AttachPages(c, cmd, |cmd.pages|, n, now) == Spec.AttachPages(c, cmd, k, n, now)
    decreases |cmd.pages| - k
  {
    hide Spec.AttachPage, CapturesResolve;
    if k < |cmd.pages| {
      RaisesAtPage(c, cmd, k + 1, n, now);
    }
  }

  // ---- attaching the run

  ghost predicate NewRunFits(c: Content, cmd: AttachCommand, ids: seq<Id>) {
    && cmd.run !in c.ingest.runs && ValidAttach(cmd) && |ids| == |cmd.pages|
    && AllStored(c, cmd, ids) && Distinct(ids) && Distinct(SelectedPlaces(cmd, ids))
  }

  lemma QueryOfCommand(cmd: AttachCommand)
    requires ValidAttach(cmd)
    ensures IsQueryText(cmd.query)
  {
  }

  /** The row of the run, its pages and its selected records; false is an integrity error. */
  method InsertRunRows(s: Session, cmd: AttachCommand, ids: seq<Id>, now: Time) returns (ok: bool)
    requires NewRunFits(s.content, cmd, ids)
    modifies s`content
    ensures ok <==> cmd.source in old(s.content.sources)
    ensures ok ==> s.content == old(s.content).(ingest := Spec.InsertRun(old(s.content.ingest), cmd, ids, now))
  {
    hide ValidAttach, AllStored, SelectedPlaces, Distinct, IsQueryText;
    ghost var c := s.content;
    QueryOfCommand(cmd);
    var row := RunRow(cmd.source, cmd.digest, cmd.query, Running, now, None, |cmd.selected|, ZERO_COUNTERS);
    var inserted := Statements.InsertRun(s.content, cmd.run, row);
    if inserted.None? {
      return false;
    }
    s.content := inserted.value;
    InsertPages(s, cmd, ids, c);
    InsertSelection(s, cmd, ids, c);
    assert c.ingest.pages[cmd.run := []][cmd.run := ids] == c.ingest.pages[cmd.run := ids];
    ghost var places := SelectedPlaces(cmd, ids);
    assert c.ingest.selected[cmd.run := []][cmd.run := places] == c.ingest.selected[cmd.run := places];
    return true;
  }

  method InsertPages(s: Session, cmd: AttachCommand, ids: seq<Id>, ghost c: Content)
    requires NewRunFits(c, cmd, ids)
    requires cmd.run in s.content.ingest.runs && s.content.ingest.runs[cmd.run].source == cmd.source
    requires cmd.run in s.content.ingest.pages && s.content.ingest.pages[cmd.run] == []
    requires s.content.ingest.snapshots == c.ingest.snapshots
    modifies s`content
    ensures s.content == old(s.content).(ingest := old(s.content.ingest).(
      pages := old(s.content.ingest.pages)[cmd.run := ids]))
  {
    hide ValidAttach, SelectedPlaces, AllStored, Distinct;
    ghost var d := s.content;
    assert d.ingest.pages[cmd.run := ids[..0]] == d.ingest.pages;
    for i := 0 to |ids|
      invariant s.content == d.(ingest := d.ingest.(pages := d.ingest.pages[cmd.run := ids[..i]]))
    {
      PageRowFits(c, cmd, ids, i);
      assert ids[..i] + [ids[i]] == ids[..i + 1];
      s.content := InsertRunSnapshot(s.content, cmd.run, ids[i]);
    }
    assert ids[..|ids|] == ids;
  }

  lemma PageRowFits(c: Content, cmd: AttachCommand, ids: seq<Id>, i: nat)
    requires NewRunFits(c, cmd, ids) && i < |ids|
    ensures ids[i] !in ids[..i]
    ensures ids[i] in c.ingest.snapshots && c.ingest.snapshots[ids[i]].source == cmd.source
  {
    assert Stored(c, cmd.source, cmd.pages[i], ids[i]);
  }

  method InsertSelection(s: Session, cmd: AttachCommand, ids: seq<Id>, ghost c: Content)
    requires NewRunFits(c, cmd, ids)
    requires cmd.run in s.content.ingest.runs
    requires cmd.run in s.content.ingest.pages && s.content.ingest.pages[cmd.run] == ids
    requires cmd.run in s.content.ingest.selected && s.content.ingest.selected[cmd.run] == []
    requires s.content.ingest.records == c.ingest.records
    modifies s`content
    ensures s.content == old(s.content).(ingest := old(s.content.ingest).(
      selected := old(s.content.ingest.selected)[cmd.run := SelectedPlaces(cmd, ids)]))
  {
    hide AllStored, Distinct, ValidAttach;
    ghost var d, places := s.content, SelectedPlaces(cmd, ids);
    assert d.ingest.selected[cmd.run := places[..0]] == d.ingest.selected;
    for i := 0 to |cmd.selected|
      invariant s.content == d.(ingest := d.ingest.(selected := d.ingest.selected[cmd.run := places[..i]]))
    {
      SelectionRowFits(c, s.content.ingest, cmd, ids, i);
      assert places[..i] + [places[i]] == places[..i + 1];
      s.content := InsertSelected(
        s.content, cmd.run, Place(ids[cmd.selected[i].page], cmd.selected[i].ordinal));
    }
    assert places[..|places|] == places;
  }

  lemma SelectionRowFits(c: Content, g: Ingest, cmd: AttachCommand, ids: seq<Id>, i: nat)
    requires NewRunFits(c, cmd, ids) && i < |cmd.selected| && g.records == c.ingest.records
    requires cmd.run in g.pages && g.pages[cmd.run] == ids
    ensures cmd.selected[i].page < |ids|
    ensures var places := SelectedPlaces(cmd, ids); places[i] !in places[..i] && PlaceOk(g, cmd.run, places[i])
  {
    var l := cmd.selected[i];
    assert Stored(c, cmd.source, cmd.pages[l.page], ids[l.page]);
  }

  /** IngestionRunRef: the snapshots of the run's pages, and the revision after a commit. */
  datatype RunRef = RunRef(ids: seq<Id>, revision: nat)

  /** InterruptedRunRepairResult: None is a run that was not eligible. */
  datatype RepairRef = RepairRef(summary: Option<Counters>, revision: nat)

  /** _replay_run: every stored row is compared with the command. */
  method ReplayRun(s: Session, cmd: AttachCommand) returns (r: Result<RunRef>)
    requires RunsResolve(s.content.ingest) && cmd.run in s.content.ingest.runs
    ensures r == if Replays(s.content.ingest, cmd)
                 then Ok(RunRef(s.content.ingest.pages[cmd.run], s.RevisionAfterCommit())) else Err(CatalogConflict)
  {
    hide SameSnapshot;
    var g := s.content.ingest;
    var run := g.runs[cmd.run];
    if run.source != cmd.source || run.digest != cmd.digest || run.query != cmd.query
       || run.selectedRecords != |cmd.selected| {
      return Err(CatalogConflict);
    }
    RunRowsThere(g, cmd.run);
    var pages := g.pages[cmd.run];
    if |pages| != |cmd.pages| {
      return Err(CatalogConflict);
    }
    for i := 0 to |pages|
      invariant forall k | 0 <= k < i ::
        && g.snapshots[pages[k]].capture == cmd.pages[k].capture && g.snapshots[pages[k]].blob == cmd.pages[k].blob.sha
        && SameSnapshot(g, pages[k], cmd.source, cmd.pages[k])
    {
      if g.snapshots[pages[i]].capture != cmd.pages[i].capture || g.snapshots[pages[i]].blob != cmd.pages[i].blob.sha {
        return Err(CatalogConflict);
      }
      if !SameSnapshot(g, pages[i], cmd.source, cmd.pages[i]) {
        return Err(CatalogConflict);
      }
    }
    var selected := g.selected[cmd.run];
    if |selected| != |cmd.selected| {
      return Err(CatalogConflict);
    }
    for i := 0 to |selected|
      invariant forall k | 0 <= k < i ::
        PageOf(pages, selected[k].snapshot) == cmd.selected[k].page && selected[k].ordinal == cmd.selected[k].ordinal
    {
      if PageOf(pages, selected[i].snapshot) != cmd.selected[i].page || selected[i].ordinal != cmd.selected[i].ordinal {
        return Err(CatalogConflict);
      }
    }
    return Ok(RunRef(pages, s.RevisionAfterCommit()));
  }

  lemma RunRowsThere(g: Ingest, run: Id)
    requires RunsResolve(g) && run in g.runs
    ensures run in g.pages && run in g.selected
    ensures forall i :: 0 <= i < |g.pages[run]| ==> g.pages[run][i] in g.snapshots && g.pages[run][i] in g.records
    ensures forall i :: 0 <= i < |g.selected[run]| ==> g.selected[run][i].snapshot in g.pages[run]
  {
    assert run in g.pages.Keys && run in g.selected.Keys;
  }

  /** attach_prepared_run. */
  method AttachPreparedRun(s: Session, cmd: AttachCommand, now: Time) returns (r: Result<RunRef>)
    requires Inv(s.content, s.next) && ValidAttach(cmd)
    modifies s
    ensures Resolves(old(s.content))
    ensures match AttachRun(old(s.content), cmd, old(s.next), now)
      case Raised(e) => r == Err(e) && s.visible == old(s.visible)
      case Done(c, n, ids) =>
        && r == Ok(RunRef(ids, s.RevisionAfterCommit())) && s.content == c && s.next == n
        && s.visible == (old(s.visible) || cmd.run !in old(s.content.ingest.runs))
  {
    hide Inv, ValidAttach, Replays, Spec.AttachPages, Spec.InsertRun, CapturesResolve, VersionsResolve, ItemsResolve, RunsResolve;
    hide NewRunFits;
    InvResolves(s.content, s.next);
    ghost var c, n := s.content, s.next;
    if cmd.run in s.content.ingest.runs {
      r := ReplayRun(s, cmd);
      return;
    }
    InvPagesReady(c, n);
    var attached := AttachPages(s, cmd, now);
    if attached.Err? {
      return Err(attached.error);
    }
    AttachedRunFits(c, cmd, n, now);
    var inserted := InsertRunRows(s, cmd, attached.value, now);
    if !inserted {
      return Err(IntegrityViolation);
    }
    s.visible := true;
    return Ok(RunRef(attached.value, s.RevisionAfterCommit()));
  }

  lemma InvPagesReady(c: Content, n: Id)
    requires Inv(c, n)
    ensures BlobsOk(c.blobs) && CapturesResolve(c) && SnapshotTablesOk(c) && Below(c.ingest.snapshots, n)
  {
    hide CorpusOk, ShelfOk, Conserved, LinksOk, ItemsOk, OriginsOk, RunsOk, StatusesOk, EvidenceOk, BlobsOk, SnapshotsOk;
    TablesResolve(c);
  }

  lemma AttachedRunFits(c: Content, cmd: AttachCommand, n: Id, now: Time)
    requires Inv(c, n) && ValidAttach(cmd) && CapturesResolve(c) && cmd.run !in c.ingest.runs
    ensures var r := Spec.AttachPages(c, cmd, |cmd.pages|, n, now);
      r.Done? ==> NewRunFits(r.content, cmd, r.value)
  {
    hide Inv, ValidAttach, CapturesResolve, Spec.AttachPages, SelectedPlaces, Stored;
    InvPagesReady(c, n);
    AttachPagesStore(c, cmd, |cmd.pages|, n, now);
    var r := Spec.AttachPages(c, cmd, |cmd.pages|, n, now);
    if r.Done? {
      StoredIdsDiffer(r.content, cmd, r.value);
      PlacesDiffer(cmd, r.value);
    }
  }

  // ---- failures

  /** _insert_failure. */
  method InsertFailure(s: Session, cmd: FailureCommand)
    requires IsSelected(s.content.ingest, cmd.key) && cmd.key.run in s.content.ingest.runs
    requires cmd.key !in s.content.ingest.items && cmd.key !in s.content.ingest.errors
    requires ErrorOk(ErrorRow(cmd.stage, cmd.code, cmd.occurredAt))
    modifies s`content
    ensures s.content == old(s.content).(ingest := Spec.InsertFailure(old(s.content.ingest), cmd))
  {
    s.content := InsertItem(s.content, cmd.key, ItemRow(FailedItem, None, false, cmd.occurredAt));
    s.content := InsertError(s.content, cmd.key, ErrorRow(cmd.stage, cmd.code, cmd.occurredAt));
  }

  lemma FailureTables(c: Content, n: Id, key: ItemKey)
    requires Inv(c, n) && IsSelected(c.ingest, key)
    ensures key.run in c.ingest.runs && (key in c.ingest.errors <==> key in c.ingest.items && c.ingest.items[key].outcome == FailedItem)
  {
    hide CorpusOk, ShelfOk, Conserved, LinksOk, ItemsOk, OriginsOk, StatusesOk, EvidenceOk, BlobsOk, SnapshotsOk, RunOk;
    assert key.run in c.ingest.selected.Keys;
  }

  /** record_failure. */
  method RecordFailure(s: Session, cmd: FailureCommand) returns (r: Result<ItemRow>)
    requires Inv(s.content, s.next) && ErrorOk(ErrorRow(cmd.stage, cmd.code, cmd.occurredAt))
    modifies s
    ensures Resolves(old(s.content))
    ensures match Spec.RecordFailure(old(s.content), cmd, old(s.next))
      case Raised(e) => r == Err(e) && s.content == old(s.content) && s.visible == old(s.visible)
      case Done(c, n, item) =>
        && r == Ok(item) && s.content == c && s.next == n
        && s.visible == (old(s.visible) || cmd.key !in old(s.content.ingest.items))
  {
    hide Inv, CapturesResolve, VersionsResolve, SelectionResolves, SelectedRecord, ErrorOk;
    InvResolves(s.content, s.next);
    var g := s.content.ingest;
    if !IsSelected(g, cmd.key) {
      return Err(CatalogConflict);
    }
    FailureTables(s.content, s.next, cmd.key);
    if cmd.key in g.items {
      if g.items[cmd.key].outcome != FailedItem {
        return Err(CatalogConflict);
      }
      if g.errors[cmd.key].stage != cmd.stage || g.errors[cmd.key].code != cmd.code {
        return Err(CatalogConflict);
      }
      return Ok(g.items[cmd.key]);
    }
    if SelectedRecord(g, cmd.key).status != Running {
      return Err(CatalogConflict);
    }
    InsertFailure(s, cmd);
    s.visible := true;
    return Ok(ItemRow(FailedItem, None, false, cmd.occurredAt));
  }

  // ---- the end of a run

  lemma TotalsFit(c: Content, n: Id, run: Id)
    requires Inv(c, n)
    ensures var t := Tally(c.ingest.items, run);
      && t.newVersions + t.metadataUpdates + t.unchangedRecords + t.failed == |ItemsOf(c.ingest.items, run)|
      && t.newPapers <= t.newVersions
  {
    hide CorpusOk, ShelfOk, Conserved, LinksOk, ItemsOk, OriginsOk, StatusesOk, EvidenceOk, BlobsOk, SnapshotsOk, RunsOk;
    hide Tally;
    TallyIsConsistent(c, run);
  }

  /** finalize_run. The checks of RunCounters and of the finished row cannot fail. */
  method FinalizeRun(s: Session, run: Id, now: Time) returns (r: Result<Counters>)
    requires Inv(s.content, s.next)
    modifies s
    ensures match Spec.FinalizeRun(old(s.content), run, old(s.next), now)
      case Raised(e) => r == Err(e) && s.content == old(s.content) && s.visible == old(s.visible)
      case Done(c, n, counters) =>
        && r == Ok(counters) && s.content == c && s.next == n
        && s.visible == (old(s.visible) || (run in old(s.content.ingest.runs)
                                            && old(s.content.ingest.runs)[run].status == Running))
  {
    hide Inv;
    var g := s.content.ingest;
    if run !in g.runs {
      return Err(NotFound);
    }
    if g.runs[run].status != Running {
      return Ok(g.runs[run].counters);
    }
    TotalsFit(s.content, s.next, run);
    var counters := Tally(g.items, run);
    var count := counters.newVersions + counters.metadataUpdates + counters.unchangedRecords + counters.failed;
    if count != g.runs[run].selectedRecords {
      return Err(ItemsMismatch);
    }
    s.content := FinishRun(s.content, run, FinalStatus(g.runs[run].selectedRecords, counters), now, counters);
    s.visible := true;
    return Ok(counters);
  }

  // ---- repair

  function Everywhere<K, V>(keys: set<K>, value: V): map<K, V> {
    map k | k in keys :: value
  }

  lemma AddKey<K, V>(table: map<K, V>, keys: set<K>, key: K, value: V)
    ensures table + Everywhere(keys + {key}, value) == (table + Everywhere(keys, value))[key := value]
  {
  }

  lemma NoKeys<K, V>(table: map<K, V>, value: V)
    ensures table + Everywhere({}, value) == table
  {
  }

  /** Failed items and their errors for some keys. */
  function FailKeys(g: Ingest, keys: set<ItemKey>, at: Time): Ingest {
    g.(items := g.items + Everywhere(keys, ItemRow(FailedItem, None, false, at)),
       errors := g.errors + Everywhere(keys, ErrorRow(Recovery, Interrupted, at)))
  }

  lemma FailKeysIsFailMissing(g: Ingest, run: Id, at: Time)
    requires run in g.selected
    ensures FailKeys(g, SelectedKeys(g, run) - g.items.Keys, at) == FailMissing(g, run, at)
  {
    hide SelectedKeys;
    var missing := SelectedKeys(g, run) - g.items.Keys;
    assert Everywhere(missing, ItemRow(FailedItem, None, false, at)) ==
           (map k | k in missing :: ItemRow(FailedItem, None, false, at));
    assert Everywhere(missing, ErrorRow(Recovery, Interrupted, at)) ==
           (map k | k in missing :: ErrorRow(Recovery, Interrupted, at));
  }

  lemma FailOneMore(g: Ingest, keys: set<ItemKey>, key: ItemKey, at: Time)
    ensures FailKeys(g, keys + {key}, at) ==
            Spec.InsertFailure(FailKeys(g, keys, at), FailureCommand(key, Recovery, Interrupted, at))
  {
    hide Everywhere;
    AddKey(g.items, keys, key, ItemRow(FailedItem, None, false, at));
    AddKey(g.errors, keys, key, ErrorRow(Recovery, Interrupted, at));
  }

  lemma NoKeysFail(g: Ingest, at: Time)
    ensures FailKeys(g, {}, at) == g
  {
    hide Everywhere;
    NoKeys(g.items, ItemRow(FailedItem, None, false, at));
    NoKeys(g.errors, ErrorRow(Recovery, Interrupted, at));
  }

  /** The selected records of a run without an item, in selection order. */
  method MissingRecords(g: Ingest, run: Id) returns (missing: seq<Place>)
    requires run in g.selected && Distinct(g.selected[run])
    ensures KeysOf(run, missing) == SelectedKeys(g, run) - g.items.Keys && Distinct(missing)
    ensures forall i :: 0 <= i < |missing| ==> missing[i] in g.selected[run]
  {
    var selected := g.selected[run];
    missing := [];
    for i := 0 to |selected|
      invariant forall p :: p in missing <==> p in selected[..i] && ItemKey(run, p) !in g.items
      invariant Distinct(missing)
    {
      assert selected[i] !in selected[..i];
      assert forall p :: p in selected[..i + 1] <==> p in selected[..i] || p == selected[i];
      if ItemKey(run, selected[i]) !in g.items {
        missing := missing + [selected[i]];
      }
    }
    assert selected[..|selected|] == selected;
  }

  /** The failures that repair inserts. */
  method FailRecords(s: Session, run: Id, missing: seq<Place>, at: Time)
    requires run in s.content.ingest.runs && run in s.content.ingest.selected && Distinct(missing)
    requires forall i :: 0 <= i < |missing| ==>
      && missing[i] in s.content.ingest.selected[run]
      && ItemKey(run, missing[i]) !in s.content.ingest.items && ItemKey(run, missing[i]) !in s.content.ingest.errors
    modifies s`content
    ensures s.content == old(s.content).(ingest := FailKeys(old(s.content.ingest), KeysOf(run, missing), at))
  {
    hide Distinct;
    ghost var c := s.content;
    assert KeysOf(run, missing[..0]) == {};
    NoKeysFail(c.ingest, at);
    for i := 0 to |missing|
      invariant s.content == c.(ingest := FailKeys(c.ingest, KeysOf(run, missing[..i]), at))
    {
      var key := ItemKey(run, missing[i]);
      NextKey(run, missing, i);
      FailOneMore(c.ingest, KeysOf(run, missing[..i]), key, at);
      InsertFailure(s, FailureCommand(key, Recovery, Interrupted, at));
    }
    assert missing[..|missing|] == missing;
  }

  lemma NextKey(run: Id, places: seq<Place>, i: nat)
    requires Distinct(places) && i < |places|
    ensures KeysOf(run, places[..i + 1]) == KeysOf(run, places[..i]) + {ItemKey(run, places[i])}
    ensures ItemKey(run, places[i]) !in KeysOf(run, places[..i])
  {
    assert places[..i + 1] == places[..i] + [places[i]] && places[i] !in places[..i];
  }

  lemma RepairTables(c: Content, n: Id, run: Id)
    requires Inv(c, n) && run in c.ingest.runs
    ensures run in c.ingest.selected && Distinct(c.ingest.selected[run])
    ensures forall k :: k in c.ingest.errors ==> k in c.ingest.items
  {
    hide CorpusOk, ShelfOk, Conserved, LinksOk, ItemsOk, OriginsOk, StatusesOk, EvidenceOk, BlobsOk, SnapshotsOk;
    assert run in c.ingest.selected.Keys && RunOk(c.sources, c.ingest, run);
  }

  /** repair_interrupted_run. It never meets the mismatch of finalize_run. */
  method RepairInterruptedRun(s: Session, cmd: RepairCommand, now: Time) returns (r: Result<RepairRef>)
    requires Inv(s.content, s.next)
    modifies s
    ensures Resolves(old(s.content)) && r.Ok? && r.value.revision == s.RevisionAfterCommit()
    ensures Done(s.content, s.next, r.value.summary) == RepairRun(old(s.content), cmd, old(s.next), now)
    ensures s.visible == (old(s.visible) || Repairable(old(s.content.ingest), cmd))
  {
    hide Inv, CapturesResolve, VersionsResolve, ItemsResolve, KeysOf, SelectedKeys, Distinct, Spec.FinalizeRun, SelectionResolves;
    hide FailMissing;
    InvResolves(s.content, s.next);
    ghost var c, n := s.content, s.next;
    RepairKeepsInv(c, cmd, n, now);
    if !Repairable(s.content.ingest, cmd) {
      return Ok(RepairRef(None, s.RevisionAfterCommit()));
    }
    RepairTables(c, n, cmd.run);
    var missing := MissingRecords(s.content.ingest, cmd.run);
    MissingHaveNothing(c, cmd.run, missing);
    FailRecords(s, cmd.run, missing, cmd.occurredAt);
    FailKeysIsFailMissing(c.ingest, cmd.run, cmd.occurredAt);
    FailMissingKeepsInv(c, cmd.run, cmd.occurredAt, n);
    var finished := FinalizeRun(s, cmd.run, now);
    return Ok(RepairRef(Some(finished.value), s.RevisionAfterCommit()));
  }

  lemma MissingHaveNothing(c: Content, run: Id, missing: seq<Place>)
    requires run in c.ingest.selected && KeysOf(run, missing) == SelectedKeys(c.ingest, run) - c.ingest.items.Keys
    requires forall k :: k in c.ingest.errors ==> k in c.ingest.items
    ensures forall i :: 0 <= i < |missing| ==>
      ItemKey(run, missing[i]) !in c.ingest.items && ItemKey(run, missing[i]) !in c.ingest.errors
  {
    forall i | 0 <= i < |missing|
      ensures ItemKey(run, missing[i]) !in c.ingest.items
    {
      assert ItemKey(run, missing[i]) in KeysOf(run, missing);
    }
  }
}
