/** The search index as a cache of the catalog: writers, rebuilders and readers interleaved step by step, with
    a fault or a crash possible at any step. */
module IndexProtocol {
  import opened Base
  import opened CatalogSchema
  import opened CatalogInvariant
  import opened CatalogGrowth
  import opened CatalogHistory
  import opened Ordering
  import opened IndexDocuments
  import opened IndexContent

  // ---- files

  datatype Index = Index(documents: seq<Document>, revision: nat, generation: nat)

  /** A file is torn while a copy is being written into it. */
  datatype File = Torn | Whole(index: Index)

  // ---- the world

  datatype Phase =
    | Listed(documents: seq<Document>, revision: nat)
    | Built(index: Index)
    | Leased(index: Index)
    | Staging(index: Index, previous: Option<Index>, file: Id)
    | Ready(index: Index, previous: Option<Index>, file: Id)
    | Live(index: Index, previous: Option<Index>)
    | Verified(index: Index, previous: Option<Index>)
    | Undoing(index: Index, previous: Option<Index>)
    | Restoring(index: Index, saved: Index, file: Id)
    | Restored(index: Index, saved: Index, file: Id)
    | Ended(published: bool)

  datatype Reader =
    | Saw(revision: nat)
    | Holding(revision: nat, file: Id)
    | Answered(revision: nat, index: Option<Index>)

  /** `past` remembers the content at each revision and `completed` the publications that returned: neither is
      read by any step. `files` are inodes, and `published` is the inode bound to the published name. */
  datatype World = World(
    db: Db, past: map<nat, Content>, files: map<Id, File>, published: Option<Id>, nextFile: Id,
    lease: Option<Id>, rebuilders: map<Id, Phase>, readers: map<Id, Reader>, completed: seq<Index>)

  const FRESH := World(INITIAL_DB, map[0 := INITIAL_CONTENT], map[], None, 0, None, map[], map[], [])

  datatype Event =
    | Commit(calls: seq<Call>)
    | Rebuild(pid: Id)
    | Advance(pid: Id)
    | Fault(pid: Id)
    | Crash(pid: Id)
    | Search(reader: Id)
    | Open(reader: Id)
    | Answer(reader: Id)

  function Current(w: World): Option<Index> {
    if w.published.Some? && w.published.value in w.files && w.files[w.published.value].Whole?
    then Some(w.files[w.published.value].index) else None
  }

  function GenerationOf(index: Option<Index>): nat {
    if index.Some? then index.value.generation else 0
  }

  /** _assert_expected_published_generation. */
  predicate ExpectedGeneration(current: Option<Index>, expected: int) {
    if expected == 0 then current.None? else current.Some? && current.value.generation == expected
  }

  function To(w: World, pid: Id, phase: Phase): World {
    w.(rebuilders := w.rebuilders[pid := phase])
  }

  /** Leaving the lease block, by return or by exception. */
  function Finish(w: World, pid: Id, published: bool): World {
    To(w, pid, Ended(published)).(lease := if w.lease == Some(pid) then None else w.lease)
  }

  function NewFile(w: World): World {
    w.(files := w.files[w.nextFile := Torn], nextFile := w.nextFile + 1)
  }

  function Fill(w: World, file: Id, index: Index): World {
    w.(files := w.files[file := Whole(index)])
  }

  /** The next step of a rebuild that meets no fault. */
  ghost function StepRebuild(w: World, pid: Id): World
    requires pid in w.rebuilders
  {
    match w.rebuilders[pid]
    case Listed(documents, revision) =>
      if Sortable(documents)
      then To(w, pid, Built(Index(Arranged(documents), revision, GenerationOf(Current(w)) + 1))) else w
    case Built(index) =>
      if w.lease.Some? then w
      else if w.db.revision != index.revision then To(w, pid, Ended(false))
      else To(w, pid, Leased(index)).(lease := Some(pid))
    case Leased(index) =>
      if !ExpectedGeneration(Current(w), index.generation - 1) then Finish(w, pid, false)
      else To(NewFile(w), pid, Staging(index, Current(w), w.nextFile))
    case Staging(index, previous, file) => To(Fill(w, file, index), pid, Ready(index, previous, file))
    case Ready(index, previous, file) => To(w, pid, Live(index, previous)).(published := Some(file))
    case Live(index, previous) => To(w, pid, Verified(index, previous))
    case Verified(index, _) => Finish(w, pid, true).(completed := w.completed + [index])
    case Undoing(index, None) => Finish(w, pid, false).(published := None)
    case Undoing(index, Some(saved)) => To(NewFile(w), pid, Restoring(index, saved, w.nextFile))
    case Restoring(index, saved, file) => To(Fill(w, file, saved), pid, Restored(index, saved, file))
    case Restored(_, _, file) => Finish(w, pid, false).(published := Some(file))
    case Ended(_) => w
  }

  ghost function StepCommit(w: World, calls: seq<Call>): World
    requires Sound(w.db)
  {
    if w.lease.Some? || !ValidCalls(calls) then w
    else
      var db := RunUnit(w.db, calls);
      w.(db := db, past := w.past[db.revision := db.content])
  }

  function StepReader(w: World, reader: Id): World
    requires reader in w.readers
  {
    match w.readers[reader]
    case Saw(revision) =>
      if w.published.None? then w.(readers := w.readers[reader := Answered(revision, None)])
      else w.(readers := w.readers[reader := Holding(revision, w.published.value)])
    case Holding(revision, file) =>
      if file in w.files && w.files[file].Whole?
      then w.(readers := w.readers[reader := Answered(revision, Some(w.files[file].index))]) else w
    case Answered(_, _) => w
  }

  /** One atomic step. Events that do not apply leave the world alone. */
  ghost function Next(w: World, e: Event): World
    requires Sound(w.db)
  {
    hide Sound, RunUnit, StepRebuild, StepReader, StepCommit;
    match e
    case Commit(calls) => StepCommit(w, calls)
    case Rebuild(pid) =>
      if pid in w.rebuilders || !Listable(w.db.content) || !AllAccepted(w.db.content) then w
      else To(w, pid, Listed(Documents(w.db.content), w.db.revision))
    case Advance(pid) => if pid in w.rebuilders then StepRebuild(w, pid) else w
    case Fault(pid) =>
      if pid !in w.rebuilders || w.rebuilders[pid].Ended? then w
      else if w.rebuilders[pid].Live?
      then To(w, pid, Undoing(w.rebuilders[pid].index, w.rebuilders[pid].previous))
      else Finish(w, pid, false)
    case Crash(pid) => if pid !in w.rebuilders || w.rebuilders[pid].Ended? then w else Finish(w, pid, false)
    case Search(reader) =>
      if reader in w.readers then w else w.(readers := w.readers[reader := Saw(w.db.revision)])
    case Open(reader) => if reader in w.readers && w.readers[reader].Saw? then StepReader(w, reader) else w
    case Answer(reader) => if reader in w.readers && w.readers[reader].Holding? then StepReader(w, reader) else w
  }

  // ---- the invariant

  ghost predicate PastOk(db: Db, past: map<nat, Content>) {
    && db.revision in past && past[db.revision] == db.content
    && (forall r :: r in past ==> r <= db.revision)
    && (forall r {:trigger Listable(past[r])} :: r in past ==> Listable(past[r]))
  }

  /** The index holds the listing of the catalog at the revision it names; generations count from one. */
  ghost predicate Faithful(past: map<nat, Content>, index: Index) {
    && index.revision in past && Listable(past[index.revision]) && Sortable(Documents(past[index.revision]))
    && 1 <= index.generation && index.documents == Arranged(Documents(past[index.revision]))
  }

  ghost predicate FilesOk(past: map<nat, Content>, files: map<Id, File>, n: Id) {
    (forall f :: f in files ==> f < n)
    && (forall f {:trigger Faithful(past, files[f].index)} ::
          f in files && files[f].Whole? ==> Faithful(past, files[f].index))
  }

  ghost predicate PublishedOk(w: World) {
    w.published.Some? ==> w.published.value in w.files && w.files[w.published.value].Whole?
  }

  predicate NeedsLease(p: Phase) {
    !p.Listed? && !p.Built? && !p.Ended?
  }

  /** What the published name may show while a rebuild is in a phase. */
  ghost predicate Shows(w: World, p: Phase) {
    match p
    case Staging(_, previous, file) => Current(w) == previous && file in w.files && w.files[file] == Torn
    case Ready(index, previous, file) => Current(w) == previous && file in w.files && w.files[file] == Whole(index)
    case Live(index, _) => Current(w) == Some(index)
    case Verified(index, _) => Current(w) == Some(index)
    case Undoing(index, _) => Current(w) == Some(index)
    case Restoring(index, saved, file) =>
      Current(w) == Some(index) && file in w.files && w.files[file] == Torn && w.published != Some(file)
    case Restored(index, saved, file) =>
      Current(w) == Some(index) && file in w.files && w.files[file] == Whole(saved)
    case _ => true
  }

  /** What was published when the publication in progress began, if it has come that far. */
  function Before(p: Phase): Option<Option<Index>> {
    match p
    case Staging(_, previous, _) => Some(previous)
    case Ready(_, previous, _) => Some(previous)
    case Live(_, previous) => Some(previous)
    case Verified(_, previous) => Some(previous)
    case Undoing(_, previous) => Some(previous)
    case Restoring(_, saved, _) => Some(Some(saved))
    case Restored(_, saved, _) => Some(Some(saved))
    case _ => None
  }

  /** Whether the new index is live and publish has not returned. */
  predicate Provisional(p: Phase) {
    p.Live? || p.Verified? || p.Undoing? || p.Restoring? || p.Restored?
  }

  /** The new index has the next generation. */
  ghost predicate Succeeds(past: map<nat, Content>, index: Index, previous: Option<Index>) {
    && index.generation == GenerationOf(previous) + 1
    && (previous.Some? ==> Faithful(past, previous.value))
  }

  ghost predicate PhaseOk(w: World, pid: Id, p: Phase) {
    && (p.Listed? ==> p.revision in w.past && Listable(w.past[p.revision]) && p.documents == Documents(w.past[p.revision]))
    && (p.Built? ==> Faithful(w.past, p.index))
    && (NeedsLease(p) ==>
          && w.lease == Some(pid) && Faithful(w.past, p.index) && p.index.revision == w.db.revision
          && Shows(w, p)
          && (Before(p).Some? ==> Succeeds(w.past, p.index, Before(p).value)))
  }

  ghost predicate PhasesOk(w: World) {
    && (forall pid {:trigger PhaseOk(w, pid, w.rebuilders[pid])} ::
          pid in w.rebuilders ==> PhaseOk(w, pid, w.rebuilders[pid]))
    && (w.lease.Some? ==> w.lease.value in w.rebuilders && NeedsLease(w.rebuilders[w.lease.value]))
  }

  ghost predicate ReaderOk(w: World, r: Reader) {
    && r.revision in w.past
    && (r.Holding? ==> r.file in w.files && w.files[r.file].Whole?)
    && (r.Answered? && r.index.Some? ==> Faithful(w.past, r.index.value))
  }

  ghost predicate ReadersOk(w: World) {
    forall r {:trigger ReaderOk(w, w.readers[r])} :: r in w.readers ==> ReaderOk(w, w.readers[r])
  }

  /** What was published before the publication in progress. */
  function Settled(w: World): Option<Index> {
    if w.lease.Some? && w.lease.value in w.rebuilders && Provisional(w.rebuilders[w.lease.value])
    then Before(w.rebuilders[w.lease.value]).value else Current(w)
  }

  predicate NotOlder(a: Index, b: Option<Index>) {
    b.Some? && a.generation <= b.value.generation && a.revision <= b.value.revision
  }

  ghost predicate CompletedOk(w: World) {
    && (forall i, j :: 0 <= i < j < |w.completed| ==>
          w.completed[i].generation < w.completed[j].generation && w.completed[i].revision <= w.completed[j].revision)
    && (w.completed != [] ==> NotOlder(w.completed[|w.completed| - 1], Settled(w)))
  }

  ghost predicate WorldOk(w: World) {
    && Sound(w.db) && PastOk(w.db, w.past) && FilesOk(w.past, w.files, w.nextFile) && PublishedOk(w)
    && PhasesOk(w) && ReadersOk(w) && CompletedOk(w)
  }
}
