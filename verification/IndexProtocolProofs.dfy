/** Every step of writers, rebuilders and readers keeps the invariant of the index protocol. */
module IndexProtocolProofs {
  import opened Base
  import opened CatalogSchema
  import opened CatalogInvariant
  import opened CatalogGrowth
  import opened CatalogHistory
  import opened Ordering
  import opened IndexDocuments
  import opened IndexContent
  import opened IndexProtocol

  ghost predicate Extends(past: map<nat, Content>, later: map<nat, Content>) {
    forall r :: r in past ==> r in later && later[r] == past[r]
  }

  // ---- writers

  lemma CommitExtends(w: World, calls: seq<Call>)
    requires Sound(w.db) && PastOk(w.db, w.past)
    ensures var v := StepCommit(w, calls);
      && Sound(v.db) && PastOk(v.db, v.past) && Extends(w.past, v.past)
      && (w.lease.Some? ==> v == w)
  {
    hide Inv, RunUnit, Listable, ValidCalls;
    if w.lease.None? && ValidCalls(calls) {
      UnitKeeps(w.db, calls);
      var db := RunUnit(w.db, calls);
      InvIsListable(db.content, db.next);
    }
  }

  lemma CommitKeeps(w: World, calls: seq<Call>)
    requires WorldOk(w)
    ensures WorldOk(StepCommit(w, calls))
  {
    hide Sound, PastOk, RunUnit, Listable, Documents, Arranged, Sortable, ValidCalls;
    CommitExtends(w, calls);
    var v := StepCommit(w, calls);
    if v != w {
      assert v.(db := w.db, past := w.past) == w;
      forall f | f in v.files && v.files[f].Whole?
        ensures Faithful(v.past, v.files[f].index)
      {
        assert Faithful(w.past, w.files[f].index);
      }
      forall pid | pid in v.rebuilders
        ensures PhaseOk(v, pid, v.rebuilders[pid])
      {
        assert PhaseOk(w, pid, w.rebuilders[pid]);
      }
      forall r | r in v.readers
        ensures ReaderOk(v, v.readers[r])
      {
        assert ReaderOk(w, w.readers[r]);
      }
    }
  }

  // ---- rebuilders

  /** A step of one rebuild changes its own phase, adds or fills a file of its own, and may bind the name. */
  ghost predicate OwnStep(w: World, v: World, pid: Id) {
    && v.db == w.db && v.past == w.past && v.readers == w.readers
    && pid in w.rebuilders && v.rebuilders.Keys == w.rebuilders.Keys && w.nextFile <= v.nextFile
    && (forall q :: q in w.rebuilders && q != pid ==> v.rebuilders[q] == w.rebuilders[q])
    && (forall f :: f in w.files && w.files[f].Whole? ==> f in v.files && v.files[f] == w.files[f])
    && (w.lease.None? || w.lease == Some(pid) || v.lease == w.lease)
    && (v.lease.Some? ==> v.lease == w.lease || (w.lease.None? && v.lease == Some(pid)))
  }

  ghost predicate SameFiles(w: World, v: World) {
    v.files == w.files && v.published == w.published && v.completed == w.completed
  }

  lemma OwnStepKeeps(w: World, v: World, pid: Id)
    requires WorldOk(w) && OwnStep(w, v, pid)
    requires FilesOk(v.past, v.files, v.nextFile) && PublishedOk(v) && CompletedOk(v)
    requires PhaseOk(v, pid, v.rebuilders[pid])
    requires v.lease == Some(pid) <==> NeedsLease(v.rebuilders[pid])
    requires w.lease == Some(pid) || SameFiles(w, v)
    ensures WorldOk(v)
  {
    hide Faithful, Sound, PastOk, Listable, Succeeds, CompletedOk, FilesOk;
    forall q | q in v.rebuilders
      ensures PhaseOk(v, q, v.rebuilders[q])
    {
      assert PhaseOk(w, q, w.rebuilders[q]);
    }
    forall r | r in v.readers
      ensures ReaderOk(v, v.readers[r])
    {
      assert ReaderOk(w, w.readers[r]);
    }
  }

  lemma ListingIsFaithful(past: map<nat, Content>, revision: nat, generation: nat)
    requires revision in past && Listable(past[revision]) && 1 <= generation
    ensures Sortable(Documents(past[revision]))
    ensures Faithful(past, Index(Arranged(Documents(past[revision])), revision, generation))
  {
    hide Listable, Documents, Arranged, Sortable;
    ListingIsSortable(past[revision]);
  }

  /** The parts of the invariant that a rebuild step reads. */
  ghost predicate Local(w: World, pid: Id) {
    && FilesOk(w.past, w.files, w.nextFile) && PublishedOk(w) && pid in w.rebuilders
    && PhaseOk(w, pid, w.rebuilders[pid]) && (w.lease == Some(pid) <==> NeedsLease(w.rebuilders[pid]))
  }

  lemma WorldIsLocal(w: World, pid: Id)
    requires WorldOk(w) && pid in w.rebuilders
    ensures Local(w, pid)
  {
    hide Faithful, Sound, PastOk, Listable, Succeeds, CompletedOk, FilesOk, Shows, ReadersOk;
    assert PhaseOk(w, pid, w.rebuilders[pid]);
  }

  ghost predicate BoundedBy(past: map<nat, Content>, revision: nat) {
    forall r :: r in past ==> r <= revision
  }

  /** The parts of the invariant that one rebuild step reads and keeps. */
  ghost predicate Stepping(w: World, pid: Id) {
    && Local(w, pid) && CompletedOk(w) && BoundedBy(w.past, w.db.revision)
    && (w.lease.Some? ==> w.lease.value in w.rebuilders)
  }

  ghost predicate Stepped(w: World, pid: Id)
    requires pid in w.rebuilders
  {
    var v := StepRebuild(w, pid);
    OwnStep(w, v, pid) && (w.lease == Some(pid) || SameFiles(w, v)) && Local(v, pid) && CompletedOk(v)
  }

  lemma FromListed(w: World, pid: Id)
    requires pid in w.rebuilders && Stepping(w, pid) && w.rebuilders[pid].Listed? && StepRebuild(w, pid) != w
    ensures Stepped(w, pid)
  {
    hide Faithful, Listable, Sortable, Arranged, Documents;
    ListingIsFaithful(w.past, w.rebuilders[pid].revision, GenerationOf(Current(w)) + 1);
  }

  lemma FromBuilt(w: World, pid: Id)
    requires pid in w.rebuilders && Stepping(w, pid) && w.rebuilders[pid].Built? && StepRebuild(w, pid) != w
    ensures Stepped(w, pid)
  {
    hide Faithful, Listable, Sortable, Arranged, Documents;
  }

  lemma SameSettled(w: World, v: World)
    requires CompletedOk(w) && v.completed == w.completed && Settled(v) == Settled(w)
    ensures CompletedOk(v)
  {
    hide Settled, NotOlder;
  }

  lemma FromLeased(w: World, pid: Id)
    requires pid in w.rebuilders && Stepping(w, pid) && w.rebuilders[pid].Leased? && StepRebuild(w, pid) != w
    ensures Stepped(w, pid)
  {
    hide Faithful, Listable, Sortable, Arranged, Documents, CompletedOk;
    NewFileIsUnseen(w);
    SameSettled(w, StepRebuild(w, pid));
  }

  lemma FromStaging(w: World, pid: Id)
    requires pid in w.rebuilders && Stepping(w, pid) && w.rebuilders[pid].Staging? && StepRebuild(w, pid) != w
    ensures Stepped(w, pid)
  {
    hide Faithful, Listable, Sortable, Arranged, Documents;
  }

  lemma FromReady(w: World, pid: Id)
    requires pid in w.rebuilders && Stepping(w, pid) && w.rebuilders[pid].Ready? && StepRebuild(w, pid) != w
    ensures Stepped(w, pid)
  {
    hide Faithful, Listable, Sortable, Arranged, Documents;
  }

  lemma FromLive(w: World, pid: Id)
    requires pid in w.rebuilders && Stepping(w, pid) && w.rebuilders[pid].Live? && StepRebuild(w, pid) != w
    ensures Stepped(w, pid)
  {
    hide Listable, Sortable, Arranged, Documents;
  }

  /** A publication that returns is the newest: its generation is one more than what it replaced. */
  lemma FromVerified(w: World, pid: Id)
    requires pid in w.rebuilders && Stepping(w, pid) && w.rebuilders[pid].Verified? && StepRebuild(w, pid) != w
    ensures Stepped(w, pid)
  {
    hide Listable, Sortable, Arranged, Documents;
  }

  lemma FromUndoing(w: World, pid: Id)
    requires pid in w.rebuilders && Stepping(w, pid) && w.rebuilders[pid].Undoing? && StepRebuild(w, pid) != w
    ensures Stepped(w, pid)
  {
    hide Faithful, Listable, Sortable, Arranged, Documents, CompletedOk;
    NewFileIsUnseen(w);
    SameSettled(w, StepRebuild(w, pid));
  }

  lemma FromRestoring(w: World, pid: Id)
    requires pid in w.rebuilders && Stepping(w, pid) && w.rebuilders[pid].Restoring? && StepRebuild(w, pid) != w
    ensures Stepped(w, pid)
  {
    hide Faithful, Listable, Sortable, Arranged, Documents;
  }

  lemma FromRestored(w: World, pid: Id)
    requires pid in w.rebuilders && Stepping(w, pid) && w.rebuilders[pid].Restored? && StepRebuild(w, pid) != w
    ensures Stepped(w, pid)
  {
    hide Faithful, Listable, Sortable, Arranged, Documents;
  }

  lemma EndedStays(w: World, pid: Id)
    requires pid in w.rebuilders
    ensures w.rebuilders[pid].Ended? ==> StepRebuild(w, pid) == w
  {
    hide Arranged, Sortable;
  }

  lemma NewFileIsUnseen(w: World)
    requires FilesOk(w.past, w.files, w.nextFile) && PublishedOk(w)
    ensures Current(NewFile(w)) == Current(w) && w.nextFile !in w.files
  {
    hide Faithful;
  }

  lemma StepIsOwn(w: World, pid: Id)
    requires pid in w.rebuilders && Stepping(w, pid) && StepRebuild(w, pid) != w
    ensures Stepped(w, pid)
  {
    hide Stepping, StepRebuild, Stepped;
    EndedStays(w, pid);
    match w.rebuilders[pid]
    case Listed(_, _) => FromListed(w, pid);
    case Built(_) => FromBuilt(w, pid);
    case Leased(_) => FromLeased(w, pid);
    case Staging(_, _, _) => FromStaging(w, pid);
    case Ready(_, _, _) => FromReady(w, pid);
    case Live(_, _) => FromLive(w, pid);
    case Verified(_, _) => FromVerified(w, pid);
    case Undoing(_, _) => FromUndoing(w, pid);
    case Restoring(_, _, _) => FromRestoring(w, pid);
    case Restored(_, _, _) => FromRestored(w, pid);
  }

  lemma AdvanceKeeps(w: World, pid: Id)
    requires WorldOk(w) && pid in w.rebuilders
    ensures WorldOk(StepRebuild(w, pid))
  {
    hide OwnStep, FilesOk, PublishedOk, PhaseOk, CompletedOk, Sound, ReadersOk, StepRebuild, SameFiles, Listable;
    var v := StepRebuild(w, pid);
    if v != w {
      WorldIsLocal(w, pid);
      StepIsOwn(w, pid);
      OwnStepKeeps(w, v, pid);
    }
  }

  /** A crash, and a fault anywhere but inside the inner try: the lease is released, the name stays as it is. */
  lemma StopKeeps(w: World, pid: Id)
    requires WorldOk(w) && pid in w.rebuilders && !w.rebuilders[pid].Ended?
    ensures WorldOk(Finish(w, pid, false))
  {
    hide FilesOk, Sound, ReadersOk, Listable, Faithful;
    WorldIsLocal(w, pid);
    var v := Finish(w, pid, false);
    StopSettles(w, pid);
    OwnStepKeeps(w, v, pid);
  }

  lemma StopSettles(w: World, pid: Id)
    requires pid in w.rebuilders && Stepping(w, pid) && !w.rebuilders[pid].Ended?
    ensures CompletedOk(Finish(w, pid, false))
  {
    hide Listable, Sortable, Arranged, Documents;
  }

  lemma UndoKeeps(w: World, pid: Id)
    requires WorldOk(w) && pid in w.rebuilders && w.rebuilders[pid].Live?
    ensures WorldOk(To(w, pid, Undoing(w.rebuilders[pid].index, w.rebuilders[pid].previous)))
  {
    hide FilesOk, Sound, ReadersOk, Listable, Faithful;
    WorldIsLocal(w, pid);
    OwnStepKeeps(w, To(w, pid, Undoing(w.rebuilders[pid].index, w.rebuilders[pid].previous)), pid);
  }

  lemma RebuildKeeps(w: World, pid: Id)
    requires WorldOk(w) && pid !in w.rebuilders && Listable(w.db.content)
    ensures WorldOk(To(w, pid, Listed(Documents(w.db.content), w.db.revision)))
  {
    hide FilesOk, Sound, Listable, Faithful, Succeeds, Documents;
    var v := To(w, pid, Listed(Documents(w.db.content), w.db.revision));
    forall q | q in v.rebuilders
      ensures PhaseOk(v, q, v.rebuilders[q])
    {
      if q != pid {
        assert PhaseOk(w, q, w.rebuilders[q]);
      }
    }
    forall r | r in v.readers
      ensures ReaderOk(v, v.readers[r])
    {
      assert ReaderOk(w, w.readers[r]);
    }
  }

  // ---- readers

  /** What a reader does changes nothing but the reader. */
  lemma ReaderKeeps(w: World, reader: Id, r: Reader)
    requires WorldOk(w) && ReaderOk(w, r)
    ensures WorldOk(w.(readers := w.readers[reader := r]))
  {
    hide FilesOk, Sound, Listable, Faithful, Succeeds, PastOk;
    var v := w.(readers := w.readers[reader := r]);
    forall q | q in v.rebuilders
      ensures PhaseOk(v, q, v.rebuilders[q])
    {
      assert PhaseOk(w, q, w.rebuilders[q]);
    }
    forall s | s in v.readers
      ensures ReaderOk(v, v.readers[s])
    {
      if s != reader {
        assert ReaderOk(w, w.readers[s]);
      }
    }
  }

  lemma StepReaderKeeps(w: World, reader: Id)
    requires WorldOk(w) && reader in w.readers
    ensures WorldOk(StepReader(w, reader))
  {
    hide Sound, Listable, Faithful, Succeeds, PastOk, PhasesOk, CompletedOk;
    assert ReaderOk(w, w.readers[reader]);
    match w.readers[reader]
    case Saw(revision) =>
      if w.published.None? {
        ReaderKeeps(w, reader, Answered(revision, None));
      } else {
        ReaderKeeps(w, reader, Holding(revision, w.published.value));
      }
    case Holding(revision, file) => ReaderKeeps(w, reader, Answered(revision, Some(w.files[file].index)));
    case Answered(_, _) =>
  }

  lemma SearchKeeps(w: World, reader: Id)
    requires WorldOk(w) && reader !in w.readers
    ensures WorldOk(w.(readers := w.readers[reader := Saw(w.db.revision)]))
  {
    hide Sound, Listable, FilesOk, PhasesOk, CompletedOk, PublishedOk;
    ReaderKeeps(w, reader, Saw(w.db.revision));
  }

  lemma NextKeeps(w: World, e: Event)
    requires WorldOk(w)
    ensures WorldOk(Next(w, e))
  {
    hide WorldOk, Sound, StepRebuild, StepReader, StepCommit, AllAccepted, Listable, Documents;
    match e
    case Commit(calls) => CommitKeeps(w, calls);
    case Rebuild(pid) =>
      if pid !in w.rebuilders && Listable(w.db.content) {
        RebuildKeeps(w, pid);
      }
    case Advance(pid) =>
      if pid in w.rebuilders {
        AdvanceKeeps(w, pid);
      }
    case Fault(pid) =>
      if pid in w.rebuilders && !w.rebuilders[pid].Ended? {
        StopKeeps(w, pid);
        if w.rebuilders[pid].Live? {
          UndoKeeps(w, pid);
        }
      }
    case Crash(pid) =>
      if pid in w.rebuilders && !w.rebuilders[pid].Ended? {
        StopKeeps(w, pid);
      }
    case Search(reader) =>
      if reader !in w.readers {
        SearchKeeps(w, reader);
      }
    case Open(reader) =>
      if reader in w.readers {
        StepReaderKeeps(w, reader);
      }
    case Answer(reader) =>
      if reader in w.readers {
        StepReaderKeeps(w, reader);
      }
  }
}
