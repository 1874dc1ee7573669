/** What a reader, a rebuilder and an operator may rely on in every interleaving of the index protocol. */
module IndexCoverage {
  import opened Base
  import opened CatalogSchema
  import opened CatalogInvariant
  import opened CatalogGrowth
  import opened CatalogHistory
  import opened Ordering
  import opened IndexDocuments
  import opened IndexContent
  import opened IndexProtocol
  import opened IndexProtocolProofs

  // ---- runs

  ghost function Run(w: World, events: seq<Event>): World
    requires WorldOk(w)
    decreases |events|
  {
    hide WorldOk, Next, Sound;
    if events == [] then w
    else
      WorldIsSound(w);
      NextKeeps(w, events[0]);
      Run(Next(w, events[0]), events[1..])
  }

  lemma WorldIsSound(w: World)
    requires WorldOk(w)
    ensures Sound(w.db)
  {
  }

  lemma FreshIsOk()
    ensures WorldOk(FRESH)
  {
    hide Inv;
    InitialInv();
    InvIsListable(INITIAL_CONTENT, 0);
  }

  lemma NextExtends(w: World, e: Event)
    requires WorldOk(w)
    ensures Sound(w.db) && Extends(w.past, Next(w, e).past)
  {
    hide Sound, RunUnit, Listable, FilesOk, PublishedOk, PhasesOk, ReadersOk, CompletedOk, AllAccepted, Documents, Arranged;
    hide Sortable, StepCommit;
    if e.Commit? {
      CommitExtends(w, e.calls);
    }
  }

  lemma {:induction false} RunKeeps(w: World, events: seq<Event>)
    requires WorldOk(w)
    ensures WorldOk(Run(w, events)) && Extends(w.past, Run(w, events).past)
    decreases |events|
  {
    hide WorldOk, Next, Sound, Inv;
    if events != [] {
      WorldIsSound(w);
      NextKeeps(w, events[0]);
      NextExtends(w, events[0]);
      RunKeeps(Next(w, events[0]), events[1..]);
    }
  }

  lemma {:induction false} RunConcat(w: World, es: seq<Event>, fs: seq<Event>)
    requires WorldOk(w)
    ensures WorldOk(Run(w, es)) && Run(w, es + fs) == Run(Run(w, es), fs)
    decreases |es|
  {
    hide WorldOk, Next, Sound;
    RunKeeps(w, es);
    if es == [] {
      assert es + fs == fs;
    } else {
      WorldIsSound(w);
      NextKeeps(w, es[0]);
      assert (es + fs)[1..] == es[1..] + fs;
      RunConcat(Next(w, es[0]), es[1..], fs);
    }
  }

  /** Every world that starts with a fresh catalog and no index. */
  ghost function Reachable(events: seq<Event>): World {
    FreshIsOk();
    Run(FRESH, events)
  }

  lemma ReachableIsOk(events: seq<Event>)
    ensures WorldOk(Reachable(events))
  {
    hide WorldOk, Run;
    FreshIsOk();
    RunKeeps(FRESH, events);
  }

  lemma ReachableConcat(es: seq<Event>, fs: seq<Event>)
    ensures WorldOk(Reachable(es)) && Reachable(es + fs) == Run(Reachable(es), fs)
  {
    hide WorldOk, Run;
    FreshIsOk();
    RunConcat(FRESH, es, fs);
  }

  lemma ReachableStep(es: seq<Event>, e: Event)
    ensures WorldOk(Reachable(es)) && Sound(Reachable(es).db)
    ensures Reachable(es + [e]) == Next(Reachable(es), e)
  {
    hide WorldOk, Reachable, Next, Sound;
    ReachableConcat(es, [e]);
    WorldIsSound(Reachable(es));
    NextKeeps(Reachable(es), e);
    assert [e][1..] == [];
    assert Run(Next(Reachable(es), e), []) == Next(Reachable(es), e);
  }

  // ---- coverage

  /** _coverage: a search is complete when both revisions are equal. */
  predicate Complete(r: Reader) {
    r.Answered? && r.index.Some? && r.index.value.revision == r.revision
  }

  /** The documents a complete search used are those that list_index_documents returns for the catalog at the
      revision the search reported, at any moment of the history at which the catalog had that revision: also
      when the index it read was being published, or was taken back afterwards. */
  lemma CompleteMeansAgrees(es: seq<Event>, fs: seq<Event>, reader: Id)
    requires var w := Reachable(es + fs); reader in w.readers && Complete(w.readers[reader])
    requires Reachable(es).db.revision == Reachable(es + fs).readers[reader].revision
    ensures var c := Reachable(es).db.content;
      && Listable(c) && Sortable(Documents(c))
      && Reachable(es + fs).readers[reader].index.value.documents == Arranged(Documents(c))
  {
    hide Sound, RunUnit, Listable, FilesOk, PublishedOk, PhasesOk, CompletedOk, Documents, Arranged, Sortable, Run;
    hide Reachable;
    ReachableConcat(es, fs);
    ReachableIsOk(es + fs);
    var u, w := Reachable(es), Reachable(es + fs);
    RunKeeps(u, fs);
    assert ReaderOk(w, w.readers[reader]);
    assert u.past[u.db.revision] == u.db.content;
  }

  /** The published name is never bound to a torn file, and always to the listing of some past revision. */
  lemma PublishedIsWhole(events: seq<Event>)
    ensures var w := Reachable(events);
      w.published.Some? ==> Current(w).Some? && Faithful(w.past, Current(w).value)
  {
    hide Sound, PastOk, Faithful, PhasesOk, CompletedOk, ReadersOk, Reachable;
    ReachableIsOk(events);
  }

  // ---- publication

  /** Generations of completed publications strictly increase, so no two rebuilds that numbered themselves from
      the same generation both complete. */
  lemma CompletedGenerationsIncrease(events: seq<Event>, i: nat, j: nat)
    requires i < j < |Reachable(events).completed|
    ensures Reachable(events).completed[i].generation < Reachable(events).completed[j].generation
  {
    hide Sound, PastOk, FilesOk, PhasesOk, PublishedOk, ReadersOk, Reachable;
    ReachableIsOk(events);
    assert CompletedOk(Reachable(events));
  }

  /** The name changes only between what was published before and the candidate of the rebuild that holds the
      lease; it is unbound only if nothing was published before. */
  ghost predicate ChangesLegally(w: World, v: World) {
    Current(v) != Current(w) ==>
      && w.lease.Some? && w.lease.value in w.rebuilders
      && var p := w.rebuilders[w.lease.value];
         && Before(p).Some?
         && ((Current(w) == Before(p).value && Current(v) == Some(p.index)) ||
             (Current(w) == Some(p.index) && Current(v) == Before(p).value))
  }

  lemma StepChangesLegally(w: World, e: Event)
    requires WorldOk(w)
    ensures Sound(w.db) && ChangesLegally(w, Next(w, e))
  {
    hide Sound, RunUnit, StepRebuild, StepReader, ReadersOk, CompletedOk, AllAccepted, Documents, Listable, PastOk, PhaseOk;
    hide ValidCalls, FilesOk, PublishedOk;
    match e
    case Commit(_) =>
    case Rebuild(_) =>
    case Advance(pid) =>
      if pid in w.rebuilders {
        WorldIsLocal(w, pid);
        AdvanceShows(w, pid);
      }
    case Fault(_) =>
    case Crash(_) =>
    case Search(_) =>
    case Open(reader) => ReaderShows(w, reader);
    case Answer(reader) => ReaderShows(w, reader);
  }

  /** One event of any run changes what the published name shows only in these ways. */
  lemma NameChangesLegally(events: seq<Event>, e: Event)
    ensures ChangesLegally(Reachable(events), Reachable(events + [e]))
  {
    hide WorldOk, Reachable, ChangesLegally;
    ReachableStep(events, e);
    StepChangesLegally(Reachable(events), e);
  }

  lemma ReaderShows(w: World, reader: Id)
    ensures reader in w.readers ==> Current(StepReader(w, reader)) == Current(w)
  {
  }

  lemma AdvanceShows(w: World, pid: Id)
    requires Local(w, pid)
    ensures ChangesLegally(w, StepRebuild(w, pid))
  {
    hide Faithful, Arranged, Documents, Listable, Sortable;
    NewFileIsUnseen(w);
  }

  /** Once the catalog is published at its current revision, a search finds the index complete until a commit
      moves the revision on: no later rebuild, completed, rolled back or abandoned, can take it away. */
  lemma CompletedStaysComplete(events: seq<Event>)
    requires var w := Reachable(events);
      w.completed != [] && w.completed[|w.completed| - 1].revision == w.db.revision
    ensures var w := Reachable(events);
      && Listable(w.db.content) && Sortable(Documents(w.db.content)) && Current(w).Some?
      && Current(w).value.revision == w.db.revision
      && Current(w).value.documents == Arranged(Documents(w.db.content))
  {
    hide Sound, Listable, ReadersOk, Reachable, Documents, Arranged, Sortable;
    ReachableIsOk(events);
    var w := Reachable(events);
    if w.lease.Some? {
      assert PhaseOk(w, w.lease.value, w.rebuilders[w.lease.value]);
    }
    if w.published.Some? {
      assert Faithful(w.past, w.files[w.published.value].index);
    }
  }

  /** A publication completes only while its revision is the catalog's. */
  lemma PublishingIsCurrent(events: seq<Event>, pid: Id)
    requires pid in Reachable(events).rebuilders && Reachable(events).rebuilders[pid].Verified?
    ensures var w, v := Reachable(events), Reachable(events + [Advance(pid)]);
      && v.completed == w.completed + [w.rebuilders[pid].index]
      && v.completed[|v.completed| - 1].revision == v.db.revision
  {
    hide Reachable, Sound, PastOk, Faithful, FilesOk, PublishedOk, ReadersOk, CompletedOk, Documents, Arranged, AllAccepted;
    ReachableStep(events, Advance(pid));
    var w := Reachable(events);
    assert PhaseOk(w, pid, w.rebuilders[pid]);
  }

  /** A search that nobody interrupts, after a completed publication at the current revision, is complete. */
  lemma SearchIsComplete(events: seq<Event>, reader: Id)
    requires var w := Reachable(events);
      && reader !in w.readers
      && w.completed != [] && w.completed[|w.completed| - 1].revision == w.db.revision
    ensures var v := Reachable(events + [Search(reader)] + [Open(reader)] + [Answer(reader)]);
      reader in v.readers && Complete(v.readers[reader])
  {
    hide WorldOk, Sound, Listable, Reachable, StepCommit, StepRebuild, Documents, Arranged, AllAccepted, Sortable;
    CompletedStaysComplete(events);
    ReachableStep(events, Search(reader));
    ReachableStep(events + [Search(reader)], Open(reader));
    ReachableStep(events + [Search(reader)] + [Open(reader)], Answer(reader));
  }
}
