/** Units of work on a database: commit bumps the revision exactly when the unit was marked visible. */
module Units {
  import opened Base
  import opened CatalogSchema
  import Spec = CatalogSpec
  import opened CatalogSpec
  import opened CatalogInvariant
  import opened CatalogHistory
  import opened UnitOfWork
  import RunRepository
  import CollectionRepository

  class Database {
    var db: Db

    constructor ()
      ensures db == INITIAL_DB
    {
      db := INITIAL_DB;
    }

    /** What the transaction did becomes the database, and the revision moves by one for a visible unit. A unit
        that is left without a commit changes nothing. */
    method Commit(s: Session)
      requires s.revision == db.revision
      modifies this
      ensures db.content == s.content && db.next == s.next
      ensures db.revision == old(db.revision) + if s.visible then 1 else 0
      ensures db.revision == s.RevisionAfterCommit()
    {
      db := Db(s.content, if s.visible then db.revision + 1 else db.revision, s.next);
    }
  }

  /** The operations that report a revision. */
  predicate Reports(op: Op) {
    op.Attach? || op.Repair?
  }

  /** One repository operation in an open unit, and the revision it reports. */
  method Perform(s: Session, call: Call) returns (r: Result<Option<nat>>)
    requires Inv(s.content, s.next) && ValidOp(call.op)
    modifies s
    ensures match Apply(old(s.content), old(s.next), call)
      case Raised(e) => r == Err(e) && s.visible == old(s.visible)
      case Done(c, n, _) =>
        && r == Ok(if Reports(call.op) then Some(s.RevisionAfterCommit()) else None)
        && s.content == c && s.next == n
        && s.visible == (old(s.visible) || Marks(old(s.content), old(s.next), call.op))
  {
    hide Inv, AttachRun, Spec.RecordItem, Spec.RecordFailure, Spec.FinalizeRun, Spec.RepairRun, Spec.CreateCollection;
    hide Spec.RenameCollection, Spec.AddMember, Spec.RemoveMember, Resolves, IdentifiersResolve, ValidAttach, ValidRecord;
    hide Spec.ResolvePaper, Marks, ValidOp;
    ghost var c, n := s.content, s.next;
    InvResolves(c, n);
    MarksOfCall(c, n, call);
    match call.op
    case Attach(cmd) =>
      OpIsValid(call.op);
      var x := RunRepository.AttachPreparedRun(s, cmd, call.now);
      r := if x.Ok? then Ok(Some(x.value.revision)) else Err(x.error);
    case Record(cmd) =>
      OpIsValid(call.op);
      var x := s.RecordItem(cmd, call.now);
      r := Forgotten(x);
    case Fail(cmd) =>
      OpIsValid(call.op);
      var x := RunRepository.RecordFailure(s, cmd);
      r := Forgotten(x);
    case Finalize(run) =>
      var x := RunRepository.FinalizeRun(s, run, call.now);
      r := Forgotten(x);
    case Repair(cmd) =>
      var x := RunRepository.RepairInterruptedRun(s, cmd, call.now);
      r := Ok(Some(x.value.revision));
    case Create(slug, title) =>
      OpIsValid(call.op);
      NextIsUnused(c, n);
      var x := CollectionRepository.Create(s, slug, title, call.now);
      r := Forgotten(x);
    case Rename(id, title) =>
      OpIsValid(call.op);
      var x := CollectionRepository.Rename(s, id, title, call.now);
      r := Forgotten(x);
    case Add(id, selector, note) =>
      var x := CollectionRepository.Add(s, id, selector, note, call.now);
      r := Forgotten(x);
    case Remove(id, selector) =>
      var x := CollectionRepository.Remove(s, id, selector, call.now);
      r := Forgotten(x);
  }

  function Forgotten<T>(r: Result<T>): Result<Option<nat>> {
    match r
    case Ok(_) => Ok(None)
    case Err(e) => Err(e)
  }

  lemma OpIsValid(op: Op)
    requires ValidOp(op)
    ensures op.Attach? ==> ValidAttach(op.attach)
    ensures op.Record? ==> ValidRecord(op.record)
    ensures op.Fail? ==> ErrorOk(ErrorRow(op.failure.stage, op.failure.code, op.failure.occurredAt))
    ensures op.Create? ==> op.slug != "" && op.title != ""
    ensures op.Rename? ==> op.title != ""
  {
  }

  lemma NextIsUnused(c: Content, n: Id)
    requires Inv(c, n)
    ensures n !in c.shelf.collections
  {
    hide BlobsOk, CorpusOk, IngestOk, ShelfOk, Conserved, FreshCorpus;
    assert Below(c.shelf.collections, n);
  }

  /** Where each operation marks the unit visible. */
  lemma MarksOfCall(c: Content, n: Id, call: Call)
    requires Inv(c, n) && ValidOp(call.op)
    ensures var op := call.op;
      && (op.Attach? ==> (Marks(c, n, op) <==> op.attach.run !in c.ingest.runs))
      && (op.Record? ==> (Marks(c, n, op) <==> op.record.key !in c.ingest.items))
      && (op.Fail? ==> (Marks(c, n, op) <==> op.failure.key !in c.ingest.items))
      && (op.Finalize? ==> (Marks(c, n, op) <==> op.run in c.ingest.runs && c.ingest.runs[op.run].status == Running))
      && (op.Repair? ==> (Marks(c, n, op) <==> Repairable(c.ingest, op.repair)))
      && (op.Create? ==> Marks(c, n, op))
      && (op.Rename? && op.collection in c.shelf.collections ==>
            (Marks(c, n, op) <==> c.shelf.collections[op.collection].title != op.title))
    ensures var r := Apply(c, n, call); r.Done? ==> (Marks(c, n, call.op) <==> r.content != c)
  {
    hide Inv, Apply, MarksMember, ValidOp;
    MarksMeansChanged(c, n, call);
  }

  /** A unit that follows the rule to roll back on error: the first operation that raises undoes all of them. Each
      operation that reports a revision reports what a commit right after it would give. */
  method RunUnitOfWork(d: Database, calls: seq<Call>) returns (committed: bool, reports: seq<Option<nat>>)
    requires Sound(d.db) && ValidCalls(calls)
    modifies d
    ensures d.db == RunUnit(old(d.db), calls)
    ensures committed <==> RunCalls(old(d.db.content), old(d.db.next), calls, false).Committed?
    ensures committed ==> |reports| == |calls| && ReportsAre(old(d.db), calls, reports)
  {
    hide Inv, Apply, Marks, ValidOp, ReportsAre, RunCalls;
    var s := new Session(d.db);
    ghost var db := d.db;
    reports := [];
    NothingReported(db, calls);
    for i := 0 to |calls|
      invariant d.db == db && Inv(s.content, s.next) && s.revision == db.revision && |reports| == i
      invariant ValidCalls(calls[..i])
      invariant RunCalls(db.content, db.next, calls[..i], false) == Committed(s.content, s.next, s.visible)
      invariant ReportsAre(db, calls[..i], reports)
    {
      ghost var c, n, visible := s.content, s.next, s.visible;
      NextCall(db, calls, i, c, n, visible);
      var r := Perform(s, calls[i]);
      if r.Err? {
        return false, reports;
      }
      OneMoreReport(db, calls, i, reports, r.value, s.content, s.next, s.visible);
      reports := reports + [r.value];
    }
    assert calls[..|calls|] == calls;
    d.Commit(s);
    return true, reports;
  }

  /** What operation i of a unit reported: the revision that the unit would have if it ended there. */
  ghost predicate ReportIs(db: Db, calls: seq<Call>, i: nat, report: Option<nat>)
    requires Sound(db) && i < |calls|
  {
    ValidCalls(calls[..i + 1])
    && report == if Reports(calls[i].op) then Some(ReportedRevision(db, calls[..i + 1])) else None
  }

  ghost predicate ReportsAre(db: Db, calls: seq<Call>, reports: seq<Option<nat>>)
    requires Sound(db)
  {
    |reports| == |calls| && forall i :: 0 <= i < |reports| ==> ReportIs(db, calls, i, reports[i])
  }

  lemma NothingReported(db: Db, calls: seq<Call>)
    requires Sound(db)
    ensures ValidCalls(calls[..0]) && ReportsAre(db, calls[..0], [])
    ensures RunCalls(db.content, db.next, calls[..0], false) == Committed(db.content, db.next, false)
  {
    hide Inv;
    assert calls[..0] == [];
  }

  lemma NextCall(db: Db, calls: seq<Call>, i: nat, c: Content, n: Id, visible: bool)
    requires Sound(db) && ValidCalls(calls) && i < |calls| && ValidCalls(calls[..i]) && Inv(c, n)
    requires RunCalls(db.content, db.next, calls[..i], false) == Committed(c, n, visible)
    ensures ValidOp(calls[i].op) && ValidCalls(calls[..i + 1])
    ensures match Apply(c, n, calls[i])
      case Raised(_) =>
        && RunCalls(db.content, db.next, calls[..i + 1], false) == RolledBack
        && RunCalls(db.content, db.next, calls, false) == RolledBack
      case Done(c1, n1, _) =>
        && Inv(c1, n1)
        && RunCalls(db.content, db.next, calls[..i + 1], false) == Committed(c1, n1, visible || Marks(c, n, calls[i].op))
  {
    hide Inv, Apply, Marks, ValidOp;
    assert calls[..i] + [calls[i]] == calls[..i + 1] && calls[..i + 1] + calls[i + 1..] == calls;
    assert ValidCalls([calls[i]]);
    RunCallsConcat(db.content, db.next, calls[..i], [calls[i]], false);
    RunCallsConcat(db.content, db.next, calls[..i + 1], calls[i + 1..], false);
    ApplyKeepsInv(c, n, calls[i]);
    assert [calls[i]][1..] == [];
    var r := Apply(c, n, calls[i]);
    if r.Done? {
      var seen := visible || Marks(c, n, calls[i].op);
      assert RunCalls(r.content, r.next, [], seen) == Committed(r.content, r.next, seen);
    }
  }

  lemma OneMoreReport(
    db: Db, calls: seq<Call>, i: nat, reports: seq<Option<nat>>, report: Option<nat>, c: Content, n: Id, visible: bool)
    requires Sound(db) && i < |calls| && ValidCalls(calls[..i]) && ValidCalls(calls[..i + 1])
    requires ReportsAre(db, calls[..i], reports)
    requires RunCalls(db.content, db.next, calls[..i + 1], false) == Committed(c, n, visible)
    requires report == if Reports(calls[i].op) then Some(if visible then db.revision + 1 else db.revision) else None
    ensures ReportsAre(db, calls[..i + 1], reports + [report])
  {
    hide Inv, RunCalls, ValidOp;
    var before, more, all := calls[..i], calls[..i + 1], reports + [report];
    forall k | 0 <= k < |all|
      ensures ReportIs(db, more, k, all[k])
    {
      if k < i {
        assert ReportIs(db, before, k, reports[k]);
        assert before[..k + 1] == more[..k + 1] && before[k] == more[k];
      } else {
        assert more[..k + 1] == more && more[k] == calls[i];
      }
    }
  }
}
