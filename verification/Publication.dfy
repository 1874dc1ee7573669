/** SqliteFtsIndexBuilder: private copies, the atomic replacement of the published index, and its rollback. */
module Publication {
  import opened Base
  import opened Files
  import opened Ordering
  import opened IndexDocuments
  import opened IndexContent
  import opened IndexTables
  import opened IndexReadBack
  import opened IndexPassages
  import IndexWriter
  import IndexFingerprint

  /** IndexBuildRequest. */
  datatype Request = Request(documents: seq<Document>, chunks: string, revision: nat)

  datatype IndexCandidate = IndexCandidate(name: Name, receipt: Receipt)

  /** Where publish stopped, and what its caller may conclude about the published name. */
  datatype Outcome = Published | BeforeReplace | RolledBack | RollbackFailed | AfterReplace

  const BLOCK_SIZE := 1024 * 1024

  ghost predicate KeepsPrivate(view: View, before: View) {
    forall n: Name :: n.Private? && n in before ==> n in view && view[n] == before[n]
  }

  class Builder {
    const dir: Directory
    const u: Unicode
    /** The tables in a database file, if it is one, and the file of some tables. */
    const load: Bytes -> Option<Tables>
    const save: Tables -> Bytes
    /** The keys of _owned_candidates. */
    var owned: set<Name>

    ghost predicate Valid()
      reads this, dir
    {
      dir.Valid() && forall n :: n in owned ==> n.Private?
    }

    constructor (dir: Directory, u: Unicode, load: Bytes -> Option<Tables>, save: Tables -> Bytes)
      requires dir.Valid()
      ensures Valid() && this.dir == dir && this.u == u && this.load == load && this.save == save && owned == {}
    {
      this.dir, this.u, this.load, this.save, owned := dir, u, load, save, {};
    }

    /** What read_index_receipt finds in a file. */
    function ReceiptIn(content: Bytes): Option<Receipt> {
      match load(content)
      case None => None
      case Some(t) => IndexTables.ReadReceipt(u, t)
    }

    /** The receipt that building a request starts from. */
    ghost function ReceiptFor(request: Request, generation: nat): Receipt
      requires DistinctVersions(request.documents)
    {
      DistinctIsSortable(request.documents);
      ReceiptOf(u, Arranged(request.documents), request.chunks, generation, request.revision)
    }

    /** The file is an index of exactly the documents of the request. */
    ghost predicate Holds(content: Bytes, request: Request) {
      load(content).Some? && IsIndexOf(u, load(content).value, request.documents, request.chunks)
    }

    /** The receipt is about the request, and counts what the file holds. */
    ghost predicate States(receipt: Receipt, content: Bytes, request: Request, generation: nat) {
      && load(content).Some?
      && receipt.chunkVersion == request.chunks && receipt.generation == generation
      && receipt.revision == request.revision
      && receipt.documents == |ReadDocuments(load(content).value)|
      && receipt.passages == |ReadPassages(load(content).value)|
    }

    /** A file that reads as the receipt of a request holds what was requested. */
    lemma ReceiptMeansContent(content: Bytes, request: Request, generation: nat)
      requires DistinctVersions(request.documents)
      requires ReceiptIn(content) == Some(ReceiptFor(request, generation))
      ensures Holds(content, request) && States(ReceiptFor(request, generation), content, request, generation)
    {
      hide ReadDocuments, ReadPassages, AllPassages, ContentDigest, FoldsAgree, ArePassagesOf, TextIsIndexed, InOrder;
      hide DistinctIds, PaperTexts, PassageTexts, PassageBefore;
      DistinctIsSortable(request.documents);
      var t, documents := load(content).value, Arranged(request.documents);
      IndexFingerprint.FingerprintDeterminesContent(
        ReadDocuments(t), ReadPassages(t), documents, AllPassages(u, documents, request.chunks));
      ReadReceiptMeansText(u, t);
      ReadPassagesAreDistinct(t);
      PassagesAreTitlesAndAbstracts(u, documents, request.chunks);
      PassagesInOrder(u, documents, request.chunks);
      ArrangedInOrder(request.documents);
      SamePassages(u, ReadPassages(t), documents, request.documents, request.chunks);
    }

    /** The block loop of _copy_descriptor. */
    method CopyInto(name: Name, content: Bytes) returns (ok: bool)
      requires dir.Valid() && name.Private? && name in dir.Shown() && dir.Shown()[name] == []
      modifies dir
      ensures dir.Valid() && SameExcept(dir.Shown(), old(dir.Shown()), name)
      ensures ok ==> dir.Shown()[name] == content
      ensures old(dir.seen) <= dir.seen && AllSamePublic(dir.seen, |old(dir.seen)|, old(dir.Shown()))
    {
      hide Directory.Valid, Directory.Shown;
      var offset := 0;
      while offset < |content|
        invariant dir.Valid() && offset <= |content| && SameExcept(dir.Shown(), old(dir.Shown()), name)
        invariant dir.Shown()[name] == content[..offset]
        invariant old(dir.seen) <= dir.seen && AllSamePublic(dir.seen, |old(dir.seen)|, old(dir.Shown()))
      {
        var length := if |content| - offset < BLOCK_SIZE then |content| - offset else BLOCK_SIZE;
        ghost var views, middle := dir.seen, dir.Shown();
        ok := dir.WriteAll(name, content[offset..offset + length]);
        SameTail(views, dir.seen, |old(dir.seen)|, old(dir.Shown()), middle);
        if !ok {
          return;
        }
        assert content[..offset] + content[offset..offset + length] == content[..offset + length];
        offset := offset + length;
      }
      assert content[..|content|] == content;
      return true;
    }

    /** _copy_to_private_binding: a private file with the same bytes, or none. */
    method CopyPrivate(purpose: Purpose, source: Name) returns (r: Option<Name>)
      requires dir.Valid()
      modifies dir
      ensures dir.Valid() && Adds(dir.Shown(), old(dir.Shown()))
      ensures old(dir.seen) <= dir.seen && AllSamePublic(dir.seen, |old(dir.seen)|, old(dir.Shown()))
      ensures r.Some? ==>
        && r.value.Private? && r.value !in old(dir.Shown()) && r.value in dir.Shown()
        && Some(dir.Shown()[r.value]) == old(Look(dir.Shown(), source))
    {
      hide Directory.Valid, Directory.Shown;
      var content := dir.Read(source);
      if content.None? {
        return None;
      }
      var copy := dir.Create(purpose);
      if copy.None? {
        return None;
      }
      ghost var k, created := |old(dir.seen)|, dir.Shown();
      assert dir.seen[k] == created;
      var ok := CopyInto(copy.value, content.value);
      AddsCopy(dir.Shown(), created, old(dir.Shown()), copy.value);
      SameTail(dir.seen[..k + 1], dir.seen, k, old(dir.Shown()), created);
      if !ok {
        ghost var views, middle := dir.seen, dir.Shown();
        var _ := dir.Cleanup(copy.value);
        SameTail(views, dir.seen, k, old(dir.Shown()), middle);
        return None;
      }
      return copy;
    }

    /** read_index_receipt: a fault, a missing file or an invalid database raises. */
    method ReadReceipt(name: Name) returns (r: Option<Receipt>)
      requires dir.Valid()
      ensures r.Some? ==> name in dir.Shown() && ReceiptIn(dir.Shown()[name]) == r
    {
      if * {
        return None;
      }
      var content := dir.Read(name);
      return if content.Some? then ReceiptIn(content.value) else None;
    }

    /** _backup_published: a verified private copy of the published index, if there is one. */
    method BackupPublished(expected: Option<Receipt>) returns (ok: bool, backup: Option<Name>)
      requires dir.Valid()
      modifies dir
      ensures dir.Valid() && Adds(dir.Shown(), old(dir.Shown()))
      ensures old(dir.seen) <= dir.seen && AllSamePublic(dir.seen, |old(dir.seen)|, old(dir.Shown()))
      ensures ok ==> (backup.Some? <==> expected.Some?)
      ensures ok && backup.Some? ==>
        && backup.value.Private? && backup.value !in old(dir.Shown()) && backup.value in dir.Shown()
        && Some(dir.Shown()[backup.value]) == old(Look(dir.Shown(), PublishedIndex))
    {
      hide Directory.Valid, Directory.Shown, ReceiptIn;
      if expected.None? {
        return true, None;
      }
      backup := CopyPrivate(ForRollback, PublishedIndex);
      if backup.None? {
        return false, None;
      }
      var receipt := ReadReceipt(backup.value);
      if receipt != expected {
        ghost var views, middle := dir.seen, dir.Shown();
        var _ := dir.Cleanup(backup.value);
        SameTail(views, dir.seen, |old(dir.seen)|, old(dir.Shown()), middle);
        return false, None;
      }
      return true, backup;
    }

    /** _restore_previous: unbinds the name, or rebinds it to a verified copy of the backup. */
    method RestorePrevious(rollback: Option<Name>, expected: Option<Receipt>, ghost before: View, ghost content: Bytes)
      returns (ok: bool)
      requires dir.Valid() && Visible(dir.Shown(), before, PublishedIndex, content)
      requires rollback.None? ==> PublishedIndex !in before
      requires rollback.Some? ==>
        && rollback.value.Private? && rollback.value in dir.Shown()
        && Some(dir.Shown()[rollback.value]) == Look(before, PublishedIndex)
      modifies dir
      ensures dir.Valid() && old(dir.seen) <= dir.seen
      ensures ok ==> Look(dir.Shown(), PublishedIndex) == Look(before, PublishedIndex)
      ensures Visible(dir.Shown(), before, PublishedIndex, content)
      ensures AllVisible(dir.seen, |old(dir.seen)|, before, PublishedIndex, content)
      ensures KeepsPrivate(dir.Shown(), old(dir.Shown()))
    {
      hide Directory.Valid, Directory.Shown, ReceiptIn;
      if rollback.None? {
        ok := dir.Unlink(PublishedIndex);
        return;
      }
      var copy := CopyPrivate(ForRestore, rollback.value);
      if copy.None? {
        return false;
      }
      ghost var k, views, middle := |old(dir.seen)|, dir.seen, dir.Shown();
      assert AllVisible(views, k, before, PublishedIndex, content);
      var receipt := ReadReceipt(copy.value);
      ok := receipt == expected;
      if ok {
        ok := dir.Replace(copy.value, PublishedIndex);
      }
      if ok {
        receipt := ReadReceipt(PublishedIndex);
        ok := receipt == expected;
      }
      ghost var k2, middle2 := |dir.seen|, dir.Shown();
      assert AllVisible(dir.seen, k, before, PublishedIndex, content);
      var cleaned := dir.Cleanup(copy.value);
      ok := ok && cleaned;
    }

    /** The inner try of publish: rebind the name, verify it, and roll back on any error. */
    method Swap(staging: Name, rollback: Option<Name>, previous: Option<Receipt>, receipt: Receipt)
      returns (outcome: Outcome)
      requires dir.Valid() && staging.Private? && staging in dir.Shown() && Some(staging) != rollback
      requires rollback.None? ==> PublishedIndex !in dir.Shown()
      requires rollback.Some? ==>
        && rollback.value.Private? && rollback.value in dir.Shown()
        && Some(dir.Shown()[rollback.value]) == Look(dir.Shown(), PublishedIndex)
      modifies dir
      ensures dir.Valid() && old(dir.seen) <= dir.seen
      ensures outcome in {Published, RolledBack, RollbackFailed}
      ensures outcome == Published ==>
        && Look(dir.Shown(), PublishedIndex) == Some(old(dir.Shown()[staging]))
        && ReceiptIn(old(dir.Shown()[staging])) == Some(receipt)
      ensures outcome == RolledBack ==> Look(dir.Shown(), PublishedIndex) == old(Look(dir.Shown(), PublishedIndex))
      ensures Visible(dir.Shown(), old(dir.Shown()), PublishedIndex, old(dir.Shown()[staging]))
      ensures AllVisible(dir.seen, |old(dir.seen)|, old(dir.Shown()), PublishedIndex, old(dir.Shown()[staging]))
      ensures KeepsPrivate(dir.Shown(), old(dir.Shown()) - {staging})
    {
      hide Directory.Valid, Directory.Shown, ReceiptIn;
      ghost var before, content := dir.Shown(), dir.Shown()[staging];
      var ok := dir.Replace(staging, PublishedIndex);
      if ok {
        var actual := ReadReceipt(PublishedIndex);
        ok := actual == Some(receipt);
        if * {
          ok := false;
        }
      }
      if ok {
        return Published;
      }
      var restored := RestorePrevious(rollback, previous, before, content);
      return if restored then RolledBack else RollbackFailed;
    }

    /** The generation of the published index, 0 if there is none. */
    ghost function GenerationIn(view: View): nat {
      if PublishedIndex in view && ReceiptIn(view[PublishedIndex]).Some? then ReceiptIn(view[PublishedIndex]).value.generation
      else 0
    }

    /** _assert_expected_published_generation. */
    method ExpectedGeneration(expected: int) returns (ok: bool, previous: Option<Receipt>)
      requires dir.Valid()
      ensures ok ==> GenerationIn(dir.Shown()) == expected
      ensures ok ==> (previous.Some? <==> PublishedIndex in dir.Shown())
    {
      hide Directory.Valid, Directory.Shown, ReceiptIn;
      if * {
        return false, None;
      }
      var current := dir.Read(PublishedIndex);
      if expected == 0 {
        return current.None?, None;
      }
      previous := ReadReceipt(PublishedIndex);
      ok := previous.Some? && previous.value.generation == expected;
    }

    /** The cleanup of the private copies in the outer finally. */
    method DropCopies(staging: Name, rollback: Option<Name>) returns (ok: bool)
      requires dir.Valid() && staging.Private? && (rollback.Some? ==> rollback.value.Private?)
      modifies dir
      ensures dir.Valid() && Drops(dir.Shown(), old(dir.Shown()), staging, rollback)
      ensures old(dir.seen) <= dir.seen && AllSamePublic(dir.seen, |old(dir.seen)|, old(dir.Shown()))
    {
      hide Directory.Valid, Directory.Shown;
      ok := dir.Cleanup(staging);
      if rollback.Some? {
        ghost var views, middle := dir.seen, dir.Shown();
        var dropped := dir.Cleanup(rollback.value);
        SameTail(views, dir.seen, |old(dir.seen)|, old(dir.Shown()), middle);
        ok := ok && dropped;
      }
    }

    /** The staging copy and the backup are whole, and stand apart from everything else. */
    ghost predicate Ready(view: View, p: Preparation)
      requires p.Prepared?
    {
      && p.staging.Private? && p.staging in view && Some(p.staging) != p.rollback
      && (p.rollback.None? ==> PublishedIndex !in view)
      && (p.rollback.Some? ==>
            && p.rollback.value.Private? && p.rollback.value in view
            && Some(view[p.rollback.value]) == Look(view, PublishedIndex))
    }

    ghost predicate Apart(before: View, p: Preparation)
      requires p.Prepared?
    {
      p.staging !in before && (p.rollback.Some? ==> p.rollback.value !in before)
    }

    /** The private copies that publish makes before the inner try. */
    method PrepareCopies(candidate: IndexCandidate, previous: Option<Receipt>) returns (p: Preparation)
      requires dir.Valid() && candidate.name in dir.Shown()
      requires previous.Some? <==> PublishedIndex in dir.Shown()
      modifies dir
      ensures dir.Valid() && Adds(dir.Shown(), old(dir.Shown()))
      ensures old(dir.seen) <= dir.seen && AllSamePublic(dir.seen, |old(dir.seen)|, old(dir.Shown()))
      ensures p.Prepared? ==>
        && Ready(dir.Shown(), p) && Apart(old(dir.Shown()), p)
        && dir.Shown()[p.staging] == old(dir.Shown())[candidate.name]
    {
      hide Directory.Valid, Directory.Shown, ReceiptIn;
      var copy := CopyPrivate(ForPublish, candidate.name);
      if copy.None? {
        return NotPrepared;
      }
      ghost var before, k, views, middle := old(dir.Shown()), |old(dir.seen)|, dir.seen, dir.Shown();
      var ok, rollback := BackupPublished(previous);
      SameTail(views, dir.seen, k, before, middle);
      assert Adds(dir.Shown(), before);
      if ok {
        var receipt := ReadReceipt(copy.value);
        ok := receipt == Some(candidate.receipt);
      } else {
        rollback := None;
      }
      if !ok {
        views, middle := dir.seen, dir.Shown();
        var _ := DropCopies(copy.value, rollback);
        SameTail(views, dir.seen, k, before, middle);
        return NotPrepared;
      }
      return Prepared(copy.value, rollback, previous);
    }

    /** Everything that publish does before the inner try. */
    method Prepare(candidate: IndexCandidate) returns (p: Preparation)
      requires dir.Valid()
      modifies dir
      ensures dir.Valid() && Adds(dir.Shown(), old(dir.Shown()))
      ensures old(dir.seen) <= dir.seen && AllSamePublic(dir.seen, |old(dir.seen)|, old(dir.Shown()))
      ensures p.Prepared? ==>
        && Ready(dir.Shown(), p) && Apart(old(dir.Shown()), p)
        && candidate.name in old(dir.Shown()) && dir.Shown()[p.staging] == old(dir.Shown())[candidate.name]
        && ReceiptIn(old(dir.Shown())[candidate.name]) == Some(candidate.receipt)
        && GenerationIn(old(dir.Shown())) + 1 == candidate.receipt.generation
    {
      hide Directory.Valid, Directory.Shown, ReceiptIn;
      var ok, previous := ExpectedGeneration(candidate.receipt.generation - 1);
      if !ok {
        return NotPrepared;
      }
      var receipt := ReadReceipt(candidate.name);
      if receipt != Some(candidate.receipt) {
        return NotPrepared;
      }
      p := PrepareCopies(candidate, previous);
    }

    /** What is left to do once the new index is committed; any failure is raised with the new index live. */
    method Conclude(candidate: IndexCandidate) returns (outcome: Outcome)
      requires dir.Valid() && candidate.name.Private?
      modifies this`owned, dir
      ensures dir.Valid() && old(dir.seen) <= dir.seen
      ensures AllSamePublic(dir.seen, |old(dir.seen)|, old(dir.Shown())) && SamePublic(dir.Shown(), old(dir.Shown()))
      ensures outcome in {Published, AfterReplace} && owned in {old(owned), old(owned) - {candidate.name}}
      ensures outcome == Published ==> owned == old(owned) - {candidate.name} && candidate.name !in dir.Shown()
    {
      hide Directory.Valid, Directory.Shown;
      if * {
        return AfterReplace;
      }
      var ok := dir.Unlink(candidate.name);
      if !ok {
        return AfterReplace;
      }
      if * {
        return AfterReplace;
      }
      owned := owned - {candidate.name};
      return Published;
    }

    /** What publish guarantees about the published name, by the point where it stopped. */
    ghost predicate Shows(outcome: Outcome, view: View, before: View, content: Option<Bytes>) {
      match outcome
      case Published => content.Some? && Look(view, PublishedIndex) == content
      case AfterReplace => content.Some? && Look(view, PublishedIndex) == content
      case BeforeReplace => Look(view, PublishedIndex) == Look(before, PublishedIndex)
      case RolledBack => Look(view, PublishedIndex) == Look(before, PublishedIndex)
      case RollbackFailed => Look(view, PublishedIndex) in {Look(before, PublishedIndex), content}
    }

    /** Only the published name changes, and at no step to anything but the candidate. */
    ghost predicate Legal(view: View, before: View, content: Option<Bytes>) {
      if content.Some? then Visible(view, before, PublishedIndex, content.value) else SamePublic(view, before)
    }

    /** From the first private copy to the last cleanup. */
    method Publish(candidate: IndexCandidate, lease: nat) returns (outcome: Outcome)
      requires Valid()
      modifies this`owned, dir
      ensures Valid() && old(dir.seen) <= dir.seen
      ensures Shows(outcome, dir.Shown(), old(dir.Shown()), old(Look(dir.Shown(), candidate.name)))
      ensures forall i :: |old(dir.seen)| <= i < |dir.seen| ==>
        Legal(dir.seen[i], old(dir.Shown()), old(Look(dir.Shown(), candidate.name)))
      ensures Legal(dir.Shown(), old(dir.Shown()), old(Look(dir.Shown(), candidate.name)))
      ensures outcome in {Published, AfterReplace} ==>
        && candidate.name in old(owned) && ReceiptIn(dir.Shown()[PublishedIndex]) == Some(candidate.receipt) && lease == candidate.receipt.revision
        && candidate.receipt.generation == GenerationIn(old(dir.Shown())) + 1
        && GenerationIn(dir.Shown()) == candidate.receipt.generation
      ensures outcome == Published ==> owned == old(owned) - {candidate.name} && candidate.name !in dir.Shown()
      ensures outcome == AfterReplace ==> owned in {old(owned), old(owned) - {candidate.name}}
      ensures outcome !in {Published, AfterReplace} ==>
        && owned == old(owned)
        && (candidate.name in old(dir.Shown()) ==>
              Look(dir.Shown(), candidate.name) == old(Look(dir.Shown(), candidate.name)))
    {
      hide Directory.Valid, Directory.Shown, ReceiptIn;
      if candidate.name !in owned || lease != candidate.receipt.revision {
        return BeforeReplace;
      }
      var p := Prepare(candidate);
      if p.NotPrepared? {
        return BeforeReplace;
      }
      ghost var k, before, content := |old(dir.seen)|, old(dir.Shown()), old(dir.Shown())[candidate.name];
      ghost var views, middle := dir.seen, dir.Shown();
      outcome := Swap(p.staging, p.rollback, p.previous, candidate.receipt);
      SwapTail(views, dir.seen, k, before, middle, content);
      if outcome == Published {
        views, middle := dir.seen, dir.Shown();
        outcome := Conclude(candidate);
        PrivateTail(views, dir.seen, k, before, middle, content);
      }
      views, middle := dir.seen, dir.Shown();
      var cleaned := DropCopies(p.staging, p.rollback);
      PrivateTail(views, dir.seen, k, before, middle, content);
      if !cleaned && outcome == Published {
        outcome := AfterReplace;
      }
    }

    /** _next_generation. */
    method NextGeneration() returns (generation: Option<nat>)
      requires dir.Valid()
      ensures generation.Some? ==> generation.value == GenerationIn(dir.Shown()) + 1
    {
      var current := dir.Read(PublishedIndex);
      if current.None? {
        return Some(1);
      }
      var receipt := ReadReceipt(PublishedIndex);
      return if receipt.Some? then Some(receipt.value.generation + 1) else None;
    }

    /** The sorted documents, their passages, the receipt and _write_candidate; None when an error is raised. */
    method WriteTables(request: Request, generation: nat) returns (tables: Option<Tables>, receipt: Receipt)
      requires DistinctVersions(request.documents)
      ensures receipt == ReceiptFor(request, generation)
      ensures tables.Some? ==> IndexTables.ReadReceipt(u, tables.value) == Some(receipt)
    {
      hide Arranged, AllPassages, ReceiptOf, IndexTables.ReadReceipt, AllNormalized, IndexWriter.AllChildrenKeyed;
      DistinctIsSortable(request.documents);
      var documents := Arranged(request.documents);
      receipt := ReceiptOf(u, documents, request.chunks, generation, request.revision);
      var normalized := CheckPassages(u, AllPassages(u, documents, request.chunks));
      if !normalized {
        return None, receipt;
      }
      tables := IndexWriter.WriteCandidate(u, documents, request.chunks, generation, request.revision);
      WrittenReadsBack(u, documents, request.chunks, generation, request.revision);
    }

    /** A private file that reads as the receipt it was written for, or none. */
    method WriteVerified(content: Bytes, receipt: Receipt) returns (file: Option<Name>)
      requires dir.Valid()
      modifies dir
      ensures dir.Valid() && Adds(dir.Shown(), old(dir.Shown()))
      ensures old(dir.seen) <= dir.seen && AllSamePublic(dir.seen, |old(dir.seen)|, old(dir.Shown()))
      ensures file.Some? ==>
        && file.value.Private? && file.value in dir.Shown() && ReceiptIn(dir.Shown()[file.value]) == Some(receipt)
    {
      hide Directory.Valid, Directory.Shown, ReceiptIn;
      file := dir.WritePrivate(ForCandidate, content);
      if file.None? {
        return;
      }
      var actual := ReadReceipt(file.value);
      if actual != Some(receipt) {
        ghost var views, middle := dir.seen, dir.Shown();
        var _ := dir.Cleanup(file.value);
        SameTail(views, dir.seen, |old(dir.seen)|, old(dir.Shown()), middle);
        return None;
      }
    }

    /** The candidate has a receipt of the request, and its file reads as that and holds what was requested. */
    ghost predicate Built(view: View, candidate: IndexCandidate, request: Request, generation: nat)
      requires DistinctVersions(request.documents)
    {
      && candidate.name in view && candidate.receipt == ReceiptFor(request, generation)
      && ReceiptIn(view[candidate.name]) == Some(candidate.receipt) && Holds(view[candidate.name], request)
      && States(candidate.receipt, view[candidate.name], request, generation)
    }

    lemma VerifiedIsBuilt(view: View, candidate: IndexCandidate, request: Request, generation: nat)
      requires DistinctVersions(request.documents) && candidate.receipt == ReceiptFor(request, generation)
      requires candidate.name in view && ReceiptIn(view[candidate.name]) == Some(candidate.receipt)
      ensures Built(view, candidate, request, generation)
    {
      hide ReceiptFor, ReceiptIn, Holds, States;
      ReceiptMeansContent(view[candidate.name], request, generation);
    }

    /** A verified candidate with the next generation, owned by this builder; None when an error is raised. */
    method BuildCandidate(request: Request) returns (candidate: Option<IndexCandidate>)
      requires Valid() && DistinctVersions(request.documents)
      modifies this`owned, dir
      ensures Valid() && Adds(dir.Shown(), old(dir.Shown()))
      ensures old(dir.seen) <= dir.seen && AllSamePublic(dir.seen, |old(dir.seen)|, old(dir.Shown()))
      ensures candidate.None? ==> owned == old(owned)
      ensures candidate.Some? ==>
        && owned == old(owned) + {candidate.value.name}
        && Built(dir.Shown(), candidate.value, request, GenerationIn(old(dir.Shown())) + 1)
    {
      hide Directory.Valid, Directory.Shown, ReceiptFor, ReceiptIn, Holds, Built, DistinctVersions, AllSamePublic, Adds, IndexTables.ReadReceipt;
      NothingAdded(dir.Shown(), dir.seen);
      var generation := NextGeneration();
      if generation.None? {
        return None;
      }
      var tables, receipt := WriteTables(request, generation.value);
      if tables.None? {
        return None;
      }
      var file := WriteVerified(save(tables.value), receipt);
      if file.None? {
        return None;
      }
      owned := owned + {file.value};
      candidate := Some(IndexCandidate(file.value, receipt));
      VerifiedIsBuilt(dir.Shown(), candidate.value, request, generation.value);
    }

    /** discard: the candidate is no longer owned, even when removing its file fails. */
    method Discard(candidate: IndexCandidate) returns (ok: bool)
      requires Valid()
      modifies this`owned, dir
      ensures Valid() && owned == old(owned) - {candidate.name}
      ensures old(dir.seen) <= dir.seen && AllSamePublic(dir.seen, |old(dir.seen)|, old(dir.Shown()))
      ensures Look(dir.Shown(), PublishedIndex) == old(Look(dir.Shown(), PublishedIndex))
      ensures ok ==> candidate.name in old(owned) && candidate.name !in dir.Shown()
    {
      hide Directory.Valid, Directory.Shown;
      if candidate.name !in owned {
        return false;
      }
      var content := dir.Read(candidate.name);
      if content.Some? {
        ok := dir.Unlink(candidate.name);
      } else {
        ok := false;
      }
      owned := owned - {candidate.name};
    }

    /** RebuildSearchIndex.execute after the snapshot: build, hold the revision, publish, discard on any error.
        `current` is the catalog revision when the lease is taken. */
    method Rebuild(request: Request, current: nat) returns (published: bool)
      requires Valid() && DistinctVersions(request.documents)
      modifies this`owned, dir
      ensures Valid() && owned <= old(owned)
      ensures published ==>
        && request.revision == current && PublishedIndex in dir.Shown()
        && ReceiptIn(dir.Shown()[PublishedIndex]) == Some(ReceiptFor(request, GenerationIn(old(dir.Shown())) + 1))
        && Holds(dir.Shown()[PublishedIndex], request)
      ensures !published && request.revision != current ==>
        Look(dir.Shown(), PublishedIndex) == old(Look(dir.Shown(), PublishedIndex))
      ensures PublishedIndex in old(dir.Shown()) ==> PublishedIndex in dir.Shown()
    {
      hide Directory.Valid, Directory.Shown, Holds, ReceiptIn, ReceiptFor;
      var candidate := BuildCandidate(request);
      if candidate.None? {
        return false;
      }
      if current != request.revision {
        var _ := Discard(candidate.value);
        return false;
      }
      var outcome := Publish(candidate.value, current);
      if outcome != Published {
        var _ := Discard(candidate.value);
        return false;
      }
      ReceiptMeansContent(dir.Shown()[PublishedIndex], request, candidate.value.receipt.generation);
      return true;
    }
  }

  /** Documents of distinct versions sort without ties, and stay so. */
  lemma DistinctIsSortable(documents: seq<Document>)
    requires DistinctVersions(documents)
    ensures Sortable(documents) && DistinctVersions(Arranged(documents)) && Sorted(Arranged(documents), DocumentKey)
  {
    hide KeyLess;
    forall d, e | d in DocumentSet(documents) && e in DocumentSet(documents) && DocumentKey(d) == DocumentKey(e)
      ensures d == e
    {
      assert DocumentKey(d)[1] == DocumentKey(e)[1];
    }
    OrderedListIsOrdered(DocumentSet(documents), DocumentKey);
    OrderedRowsDistinct(DocumentSet(documents), DocumentKey);
    var all := Arranged(documents);
    forall i, j | 0 <= i < j < |all|
      ensures all[i].version != all[j].version
    {
      assert all[i] in all && all[j] in all && all[i] != all[j];
    }
  }

  lemma ArrangedInOrder(documents: seq<Document>)
    requires DistinctVersions(documents)
    ensures Sortable(documents)
    ensures InOrder(Arranged(documents)) && forall d :: d in Arranged(documents) <==> d in documents
  {
    hide KeyLess, DocumentKey;
    DistinctIsSortable(documents);
    OrderedListIsOrdered(DocumentSet(documents), DocumentKey);
    var all := Arranged(documents);
    forall i, j | 0 <= i < j < |all|
      ensures all[i].paper < all[j].paper || (all[i].paper == all[j].paper && all[i].version < all[j].version)
    {
      DocumentsBefore(all[i], all[j]);
    }
  }

  lemma SamePassages(
    u: Unicode, passages: seq<Passage>, documents: seq<Document>, others: seq<Document>, chunks: string)
    requires ArePassagesOf(u, passages, documents, chunks) && forall d :: d in documents <==> d in others
    ensures ArePassagesOf(u, passages, others, chunks)
  {
    hide PassageFor, DistinctIds;
  }

  lemma NothingAdded(view: View, views: seq<View>)
    ensures Adds(view, view) && AllSamePublic(views, |views|, view)
  {
  }

  /** The constructor check of each passage identity. */
  method CheckPassages(u: Unicode, passages: seq<Passage>) returns (ok: bool)
    ensures ok <==> AllNormalized(u, passages)
  {
    hide Normalize;
    for i := 0 to |passages|
      invariant forall j :: 0 <= j < i ==> IsNormalized(u, passages[j].identity)
    {
      if !IsNormalized(u, passages[i].identity) {
        return false;
      }
    }
    return true;
  }

  lemma SwapTail(views: seq<View>, later: seq<View>, k: nat, before: View, middle: View, content: Bytes)
    requires views <= later && k <= |views| && AllSamePublic(views, k, before) && Adds(middle, before)
    requires AllVisible(later, |views|, middle, PublishedIndex, content)
    ensures AllVisible(later, k, before, PublishedIndex, content)
  {
    forall i | k <= i < |later|
      ensures Visible(later[i], before, PublishedIndex, content)
    {
      if i < |views| {
        assert SamePublic(views[i], before);
      }
    }
  }

  lemma PrivateTail(views: seq<View>, later: seq<View>, k: nat, before: View, middle: View, content: Bytes)
    requires views <= later && k <= |views| && AllVisible(views, k, before, PublishedIndex, content)
    requires Visible(middle, before, PublishedIndex, content) && AllSamePublic(later, |views|, middle)
    ensures AllVisible(later, k, before, PublishedIndex, content)
  {
    forall i | k <= i < |later|
      ensures Visible(later[i], before, PublishedIndex, content)
    {
      if i < |views| {
        assert views[i] == later[i];
      } else {
        assert SamePublic(later[i], middle);
      }
    }
  }

  datatype Preparation =
    | Prepared(staging: Name, rollback: Option<Name>, previous: Option<Receipt>)
    | NotPrepared

  ghost predicate Drops(view: View, before: View, staging: Name, rollback: Option<Name>) {
    && view.Keys <= before.Keys
    && (forall n :: n in before && n != staging && Some(n) != rollback ==> n in view)
    && (forall n :: n in view ==> view[n] == before[n])
  }
}
