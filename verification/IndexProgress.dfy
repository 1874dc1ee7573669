/** What a rebuild achieves when nothing disturbs it, and what a rollback leaves behind. */
module IndexProgress {
  import opened Base
  import opened CatalogSchema
  import opened CatalogInvariant
  import opened CatalogHistory
  import opened Ordering
  import opened IndexDocuments
  import opened IndexContent
  import opened IndexProtocol
  import opened IndexProtocolProofs
  import opened IndexCoverage

  function Advances(pid: Id, k: nat): seq<Event> {
    seq(k, i requires 0 <= i < k => Advance(pid))
  }

  lemma ReachableAdvance(es: seq<Event>, pid: Id, k: nat)
    ensures WorldOk(Reachable(es + Advances(pid, k))) && Sound(Reachable(es + Advances(pid, k)).db)
    ensures Reachable(es + Advances(pid, k + 1)) == Next(Reachable(es + Advances(pid, k)), Advance(pid))
  {
    hide WorldOk, Reachable, Next, Sound;
    ReachableStep(es + Advances(pid, k), Advance(pid));
    assert es + Advances(pid, k) + [Advance(pid)] == es + Advances(pid, k + 1);
  }

  /** The index that a rebuild started now would publish. */
  ghost function NextIndex(w: World): Index
    requires Listable(w.db.content) && Sortable(Documents(w.db.content))
  {
    Index(Arranged(Documents(w.db.content)), w.db.revision, GenerationOf(Current(w)) + 1)
  }

  lemma PublishedGeneration(w: World)
    requires WorldOk(w)
    ensures Current(w).Some? ==> 1 <= Current(w).value.generation
  {
    hide Sound, PastOk, Listable, PhasesOk, CompletedOk, ReadersOk, Documents, Arranged, Sortable;
    if Current(w).Some? {
      assert Faithful(w.past, w.files[w.published.value].index);
    }
  }

  lemma BuildSteps(es: seq<Event>, pid: Id)
    requires var w := Reachable(es);
      pid !in w.rebuilders && w.lease.None? && Listable(w.db.content) && AllAccepted(w.db.content)
    ensures Sortable(Documents(Reachable(es).db.content))
    ensures var w, v := Reachable(es), Reachable(es + [Rebuild(pid)] + Advances(pid, 2));
      v == To(w, pid, Leased(NextIndex(w))).(lease := Some(pid))
  {
    hide WorldOk, Reachable, Sound, Listable, AllAccepted, Documents, Arranged, Sortable, StepReader, StepCommit;
    var w := Reachable(es);
    ListingIsSortable(w.db.content);
    ReachableStep(es, Rebuild(pid));
    var started := es + [Rebuild(pid)];
    assert started + Advances(pid, 0) == started;
    ReachableAdvance(started, pid, 0);
    ReachableAdvance(started, pid, 1);
  }

  lemma AdvanceIsStep(w: World, pid: Id)
    requires Sound(w.db) && pid in w.rebuilders
    ensures Next(w, Advance(pid)) == StepRebuild(w, pid)
  {
    hide Sound, StepRebuild, StepReader, StepCommit, Listable, AllAccepted, Documents;
  }

  /** From the lease to a whole copy of the new index under a private name. */
  lemma CopySteps(w: World, pid: Id, index: Index)
    requires pid in w.rebuilders && w.rebuilders[pid] == Leased(index)
    requires index.generation == GenerationOf(Current(w)) + 1
    requires Current(w).Some? ==> 1 <= Current(w).value.generation
    ensures var u := StepRebuild(w, pid);
      && u == To(NewFile(w), pid, Staging(index, Current(w), w.nextFile))
      && StepRebuild(u, pid) == To(Fill(NewFile(w), w.nextFile, index), pid, Ready(index, Current(w), w.nextFile))
  {
    hide Arranged, Sortable;
  }

  /** From there to the end. */
  lemma BindSteps(w: World, pid: Id, index: Index, previous: Option<Index>, file: Id)
    requires pid in w.rebuilders && w.rebuilders[pid] == Ready(index, previous, file)
    ensures var u := StepRebuild(w, pid);
      && u == To(w, pid, Live(index, previous)).(published := Some(file))
      && var t := StepRebuild(u, pid);
      && t == To(w, pid, Verified(index, previous)).(published := Some(file))
      && StepRebuild(t, pid) ==
           Finish(w, pid, true).(published := Some(file), completed := w.completed + [index])
  {
    hide Arranged, Sortable;
  }

  lemma CopyRuns(es: seq<Event>, pid: Id, index: Index)
    requires pid in Reachable(es).rebuilders && Reachable(es).rebuilders[pid] == Leased(index)
    requires index.generation == GenerationOf(Current(Reachable(es))) + 1
    ensures var w := Reachable(es);
      Reachable(es + Advances(pid, 2)) ==
        To(Fill(NewFile(w), w.nextFile, index), pid, Ready(index, Current(w), w.nextFile))
  {
    hide WorldOk, Reachable, Sound, Next, StepRebuild, Current;
    var w := Reachable(es);
    assert es + Advances(pid, 0) == es;
    ReachableIsOk(es);
    PublishedGeneration(w);
    CopySteps(w, pid, index);
    ReachableAdvance(es, pid, 0);
    AdvanceIsStep(w, pid);
    ReachableAdvance(es, pid, 1);
    AdvanceIsStep(Reachable(es + Advances(pid, 1)), pid);
  }

  lemma BindRuns(es: seq<Event>, pid: Id, index: Index, previous: Option<Index>, file: Id)
    requires pid in Reachable(es).rebuilders && Reachable(es).rebuilders[pid] == Ready(index, previous, file)
    ensures var w := Reachable(es);
      Reachable(es + Advances(pid, 3)) ==
        Finish(w, pid, true).(published := Some(file), completed := w.completed + [index])
  {
    hide WorldOk, Reachable, Sound, Next, StepRebuild;
    var w := Reachable(es);
    assert es + Advances(pid, 0) == es;
    BindSteps(w, pid, index, previous, file);
    ReachableAdvance(es, pid, 0);
    AdvanceIsStep(w, pid);
    ReachableAdvance(es, pid, 1);
    AdvanceIsStep(Reachable(es + Advances(pid, 1)), pid);
    ReachableAdvance(es, pid, 2);
    AdvanceIsStep(Reachable(es + Advances(pid, 2)), pid);
  }

  lemma PublishSteps(es: seq<Event>, pid: Id, w: World, index: Index)
    requires Reachable(es) == To(w, pid, Leased(index)).(lease := Some(pid)) && pid !in w.rebuilders
    requires index.generation == GenerationOf(Current(w)) + 1
    ensures var v := Reachable(es + Advances(pid, 5));
      && v.rebuilders == w.rebuilders[pid := Ended(true)] && v.lease.None? && v.db == w.db
      && v.completed == w.completed + [index] && Current(v) == Some(index)
  {
    hide Reachable;
    var leased := Reachable(es);
    CopyRuns(es, pid, index);
    BindRuns(es + Advances(pid, 2), pid, index, Current(leased), leased.nextFile);
    assert es + Advances(pid, 2) + Advances(pid, 3) == es + Advances(pid, 5);
  }

  /** From every reachable world whose listing does not raise and in which nobody publishes, a rebuild that meets no
      fault publishes that listing at the current revision, with the next generation, and releases the lease. */
  lemma RebuildPublishes(es: seq<Event>, pid: Id)
    requires var w := Reachable(es);
      pid !in w.rebuilders && w.lease.None? && Listable(w.db.content) && AllAccepted(w.db.content)
    ensures Sortable(Documents(Reachable(es).db.content))
    ensures var w, v := Reachable(es), Reachable(es + [Rebuild(pid)] + Advances(pid, 7));
      && v.rebuilders == w.rebuilders[pid := Ended(true)] && v.lease.None? && v.db == w.db
      && v.completed == w.completed + [NextIndex(w)] && Current(v) == Some(NextIndex(w))
  {
    hide WorldOk, Reachable, Sound, Listable, AllAccepted, Documents, Arranged, Sortable, Next;
    BuildSteps(es, pid);
    var leased := es + [Rebuild(pid)] + Advances(pid, 2);
    PublishSteps(leased, pid, Reachable(es), NextIndex(Reachable(es)));
    assert leased + Advances(pid, 5) == es + [Rebuild(pid)] + Advances(pid, 7);
  }

  /** A fault after the new index went live, and a rollback that meets no further one, leave what was published
      before, or nothing if nothing was, and release the lease. */
  lemma RollbackRestores(es: seq<Event>, pid: Id)
    requires pid in Reachable(es).rebuilders && Reachable(es).rebuilders[pid].Live?
    ensures var w := Reachable(es);
      var previous := w.rebuilders[pid].previous;
      var v := Reachable(es + [Fault(pid)] + Advances(pid, if previous.None? then 1 else 3));
      && v.rebuilders == w.rebuilders[pid := Ended(false)] && v.lease.None? && v.db == w.db
      && v.completed == w.completed && Current(v) == previous
  {
    hide WorldOk, Reachable, Sound, Next, StepRebuild;
    var w := Reachable(es);
    ReachableIsOk(es);
    LiveHoldsLease(w, pid);
    ReachableStep(es, Fault(pid));
    FaultUndoes(w, pid);
    var faulted := es + [Fault(pid)];
    assert faulted + Advances(pid, 0) == faulted;
    UndoSteps(Reachable(faulted), pid);
    ReachableAdvance(faulted, pid, 0);
    AdvanceIsStep(Reachable(faulted), pid);
    if w.rebuilders[pid].previous.Some? {
      ReachableAdvance(faulted, pid, 1);
      AdvanceIsStep(Reachable(faulted + Advances(pid, 1)), pid);
      ReachableAdvance(faulted, pid, 2);
      AdvanceIsStep(Reachable(faulted + Advances(pid, 2)), pid);
    }
  }

  lemma FaultUndoes(w: World, pid: Id)
    requires Sound(w.db) && pid in w.rebuilders && w.rebuilders[pid].Live?
    ensures Next(w, Fault(pid)) == To(w, pid, Undoing(w.rebuilders[pid].index, w.rebuilders[pid].previous))
  {
    hide Sound, StepRebuild, StepReader, StepCommit, Listable, AllAccepted, Documents;
  }

  /** The rollback: unbind the name, or copy what was saved and rebind it. */
  lemma UndoSteps(w: World, pid: Id)
    requires pid in w.rebuilders && w.rebuilders[pid].Undoing? && w.lease == Some(pid)
    ensures var previous := w.rebuilders[pid].previous;
      var u := StepRebuild(w, pid);
      if previous.None? then u == Finish(w, pid, false).(published := None)
      else
        && pid in u.rebuilders && var t := StepRebuild(u, pid);
        && pid in t.rebuilders && var s := StepRebuild(t, pid);
        && s.rebuilders == w.rebuilders[pid := Ended(false)] && s.lease.None? && s.db == w.db
        && s.completed == w.completed && Current(s) == previous
  {
    hide Arranged, Sortable;
  }

  lemma LiveHoldsLease(w: World, pid: Id)
    requires WorldOk(w) && pid in w.rebuilders && w.rebuilders[pid].Live?
    ensures w.lease == Some(pid)
  {
    hide Sound, PastOk, FilesOk, CompletedOk, ReadersOk, Faithful, Shows;
    assert PhaseOk(w, pid, w.rebuilders[pid]);
  }
}
