/** Units of work, histories of them, and what holds over every history. */
module CatalogHistory {
  import opened Base
  import opened CatalogSchema
  import opened CatalogSpec
  import opened CatalogInvariant
  import opened RecordProofs
  import opened RecordInvariant
  import opened RunProofs
  import opened CatalogGrowth

  datatype Op =
    | Attach(attach: AttachCommand)
    | Record(record: RecordCommand)
    | Fail(failure: FailureCommand)
    | Finalize(run: Id)
    | Repair(repair: RepairCommand)
    | Create(slug: string, title: string)
    | Rename(collection: Id, title: string)
    | Add(collection: Id, selector: Selector, note: Option<string>)
    | Remove(collection: Id, selector: Selector)

  /** The checks of the command objects. */
  ghost predicate ValidOp(op: Op) {
    match op
    case Attach(cmd) => ValidAttach(cmd)
    case Record(cmd) => ValidRecord(cmd)
    case Fail(cmd) => ErrorOk(ErrorRow(cmd.stage, cmd.code, cmd.occurredAt))
    case Create(slug, title) => ValidSlug(slug) && !Blank(title)
    case Rename(_, title) => !Blank(title)
    case _ => true
  }

  datatype Call = Call(op: Op, now: Time)

  ghost function Forget<T>(s: Step<T>): Step<()> {
    match s
    case Done(c, n, _) => Done(c, n, ())
    case Raised(e) => Raised(e)
  }

  /** One repository operation. */
  ghost function Apply(c: Content, n: Id, call: Call): Step<()>
    requires Inv(c, n) && ValidOp(call.op)
  {
    InvResolves(c, n);
    match call.op
    case Attach(cmd) => Forget(AttachRun(c, cmd, n, call.now))
    case Record(cmd) => Forget(RecordItem(c, cmd, n, call.now))
    case Fail(cmd) => Forget(RecordFailure(c, cmd, n))
    case Finalize(run) => Forget(FinalizeRun(c, run, n, call.now))
    case Repair(cmd) => Forget(RepairRun(c, cmd, n, call.now))
    case Create(slug, title) => Forget(CreateCollection(c, slug, title, n, call.now))
    case Rename(id, title) => Forget(RenameCollection(c, id, title, n, call.now))
    case Add(id, s, note) => Forget(AddMember(c, id, s, note, n, call.now))
    case Remove(id, s) => Forget(RemoveMember(c, id, s, n, call.now))
  }

  ghost predicate MarksMember(c: Content, id: Id, s: Selector, n: Id, keep: bool, note: Option<string>)
    requires Inv(c, n)
  {
    InvResolves(c, n);
    var found := ResolvePaper(c.corpus, s);
    found.Found? &&
    var m := MemberKey(id, found.paper);
    if keep then m !in c.shelf.members || c.shelf.members[m].note != note else m in c.shelf.members
  }

  /** Where the code of an operation, if it does not raise, calls mark_visible. */
  ghost predicate Marks(c: Content, n: Id, op: Op)
    requires Inv(c, n)
  {
    match op
    case Attach(cmd) => cmd.run !in c.ingest.runs
    case Record(cmd) => cmd.key !in c.ingest.items
    case Fail(cmd) => cmd.key !in c.ingest.items
    case Finalize(run) => run in c.ingest.runs && c.ingest.runs[run].status == Running
    case Repair(cmd) => Repairable(c.ingest, cmd)
    case Create(_, _) => true
    case Rename(id, title) => id in c.shelf.collections && c.shelf.collections[id].title != title
    case Add(id, s, note) => MarksMember(c, id, s, n, true, note)
    case Remove(id, s) => MarksMember(c, id, s, n, false, None)
  }

  lemma ApplyKeepsInv(c: Content, n: Id, call: Call)
    requires Inv(c, n) && ValidOp(call.op)
    ensures var r := Apply(c, n, call); r.Done? ==> Inv(r.content, r.next) && n <= r.next
  {
    hide Inv, AttachRun, RecordItem, RecordFailure, FinalizeRun, RepairRun, CreateCollection, RenameCollection;
    hide AddMember, RemoveMember, Resolves, IdentifiersResolve, ValidAttach, ValidRecord;
    InvResolves(c, n);
    match call.op
    case Attach(cmd) => AttachKeepsInv(c, cmd, n, call.now);
    case Record(cmd) => RecordKeepsInv(c, cmd, n, call.now);
    case Fail(cmd) => FailureKeepsInv(c, cmd, n);
    case Finalize(run) => FinalizeKeepsInv(c, run, n, call.now);
    case Repair(cmd) => RepairKeepsInv(c, cmd, n, call.now);
    case Create(slug, title) => CreateKeepsInv(c, slug, title, n, call.now);
    case Rename(id, title) => RenameKeepsInv(c, id, title, n, call.now);
    case Add(id, s, note) => AddKeepsInv(c, id, s, note, n, call.now);
    case Remove(id, s) => RemoveKeepsInv(c, id, s, n, call.now);
  }

  lemma ApplyGrows(c: Content, n: Id, call: Call)
    requires Inv(c, n) && ValidOp(call.op)
    ensures var r := Apply(c, n, call); r.Done? ==> Grows(c, r.content)
  {
    hide Inv, AttachRun, RecordItem, RecordFailure, FinalizeRun, RepairRun, ValidAttach, ValidRecord;
    hide ResolvePaper, Resolves, IdentifiersResolve;
    InvResolves(c, n);
    match call.op
    case Attach(cmd) => hide Grows; AttachGrows(c, cmd, n, call.now);
    case Record(cmd) => hide Grows; RecordGrows(c, cmd, n, call.now);
    case Fail(cmd) => hide Grows; FailureGrows(c, cmd, n);
    case Finalize(run) => hide Grows; FinalizeGrows(c, run, n, call.now);
    case Repair(cmd) => hide Grows; RepairGrows(c, cmd, n, call.now);
    case _ => GrowsReflexive(c);
  }

  // ---- visible means changed

  lemma RecordMarks(c: Content, n: Id, cmd: RecordCommand, now: Time)
    requires Inv(c, n) && ValidRecord(cmd) && Resolves(c)
    ensures var r := RecordItem(c, cmd, n, now);
      r.Done? ==> if cmd.key in c.ingest.items then r.content == c && r.next == n else cmd.key in r.content.ingest.items
  {
    hide Inv, SelectionResolves, ItemsResolve, CapturesResolve, Absorb, ResolveTarget, SelectedRecord, Admitted, LinkAgrees;
    hide IdentityShape, ObservationShape, BindingShape;
    var r := RecordItem(c, cmd, n, now);
    if r.Done? && cmd.key !in c.ingest.items {
      AbsorbHasShape(c, ResolveTarget(c.corpus, cmd.observed, n).value, cmd, now);
    }
  }

  lemma RepairMarks(c: Content, n: Id, cmd: RepairCommand, now: Time)
    requires Inv(c, n) && Resolves(c)
    ensures var r := RepairRun(c, cmd, n, now);
      r.Done? ==>
        if Repairable(c.ingest, cmd) then r.content.ingest.runs != c.ingest.runs else r.content == c && r.next == n
  {
    hide Inv, Resolves;
    RepairKeepsInv(c, cmd, n, now);
  }

  /** An operation that returns has changed rows exactly when its code marked the unit visible. */
  lemma MarksMeansChanged(c: Content, n: Id, call: Call)
    requires Inv(c, n) && ValidOp(call.op)
    ensures var r := Apply(c, n, call);
      r.Done? ==> (Marks(c, n, call.op) <==> r.content != c) && (r.content == c ==> r.next == n)
  {
    hide Inv, AttachRun, RecordItem, RecordFailure, FinalizeRun, RepairRun, CreateCollection, RenameCollection;
    hide AddMember, RemoveMember, Resolves, IdentifiersResolve, ValidAttach, ValidRecord, MarksMember, Repairable;
    InvResolves(c, n);
    match call.op
    case Attach(cmd) => AttachMarks(c, n, cmd, call.now);
    case Record(cmd) => RecordMarks(c, n, cmd, call.now);
    case Fail(cmd) => FailMarks(c, n, cmd);
    case Finalize(run) => FinalizeMarks(c, n, run, call.now);
    case Repair(cmd) => RepairMarks(c, n, cmd, call.now);
    case Create(slug, title) => CreateMarks(c, n, slug, title, call.now);
    case Rename(id, title) => RenameMarks(c, n, id, title, call.now);
    case Add(id, s, note) => AddMarks(c, n, id, s, note, call.now);
    case Remove(id, s) => RemoveMarks(c, n, id, s, call.now);
  }

  lemma FailMarks(c: Content, n: Id, cmd: FailureCommand)
    requires Resolves(c)
    ensures var r := RecordFailure(c, cmd, n);
      r.Done? ==> if cmd.key in c.ingest.items then r.content == c && r.next == n else cmd.key in r.content.ingest.items
  {
    hide Resolves;
  }

  lemma FinalizeMarks(c: Content, n: Id, run: Id, now: Time)
    ensures var r := FinalizeRun(c, run, n, now);
      r.Done? ==>
        if run in c.ingest.runs && c.ingest.runs[run].status == Running
        then run in r.content.ingest.runs && r.content.ingest.runs[run].status != Running
        else r.content == c && r.next == n
  {
  }

  lemma RenameMarks(c: Content, n: Id, id: Id, title: string, now: Time)
    ensures var r := RenameCollection(c, id, title, n, now);
      r.Done? ==>
        && id in c.shelf.collections && id in r.content.shelf.collections
        && r.content.shelf.collections[id].title == title
        && (c.shelf.collections[id].title == title ==> r.content == c && r.next == n)
  {
  }

  lemma AttachMarks(c: Content, n: Id, cmd: AttachCommand, now: Time)
    requires Inv(c, n) && Resolves(c) && ValidAttach(cmd)
    ensures var r := AttachRun(c, cmd, n, now);
      r.Done? ==> if cmd.run in c.ingest.runs then r.content == c && r.next == n else cmd.run in r.content.ingest.runs
  {
  }

  lemma CreateMarks(c: Content, n: Id, slug: string, title: string, now: Time)
    requires Inv(c, n)
    ensures var r := CreateCollection(c, slug, title, n, now);
      r.Done? ==> r.content.shelf.collections != c.shelf.collections
  {
    assert Below(c.shelf.collections, n);
    assert n !in c.shelf.collections;
  }

  lemma AddMarks(c: Content, n: Id, id: Id, s: Selector, note: Option<string>, now: Time)
    requires Inv(c, n) && IdentifiersResolve(c.corpus)
    ensures var r := AddMember(c, id, s, note, n, now);
      r.Done? ==>
        if MarksMember(c, id, s, n, true, note) then r.content.shelf.members != c.shelf.members
        else r.content == c && r.next == n
  {
    hide Inv, ResolvePaper;
  }

  lemma RemoveMarks(c: Content, n: Id, id: Id, s: Selector, now: Time)
    requires Inv(c, n) && IdentifiersResolve(c.corpus)
    ensures var r := RemoveMember(c, id, s, n, now);
      r.Done? ==>
        if MarksMember(c, id, s, n, false, None) then r.content.shelf.members != c.shelf.members
        else r.content == c && r.next == n
  {
    hide Inv, ResolvePaper;
  }

  // ---- units of work

  datatype Unit = Committed(content: Content, next: Id, visible: bool) | RolledBack

  ghost predicate ValidCalls(calls: seq<Call>) {
    forall i | 0 <= i < |calls| :: ValidOp(calls[i].op)
  }

  /** The operations of one unit, in order; the first that raises rolls everything back. */
  ghost function RunCalls(c: Content, n: Id, calls: seq<Call>, visible: bool): Unit
    requires Inv(c, n) && ValidCalls(calls)
    decreases |calls|
  {
    hide Inv, Apply;
    if calls == [] then Committed(c, n, visible)
    else
      ApplyKeepsInv(c, n, calls[0]);
      match Apply(c, n, calls[0])
      case Raised(_) => RolledBack
      case Done(c1, n1, _) => RunCalls(c1, n1, calls[1..], visible || Marks(c, n, calls[0].op))
  }

  /** A unit of one operation. */
  lemma SingleCall(c: Content, n: Id, call: Call)
    requires Inv(c, n) && ValidOp(call.op)
    ensures RunCalls(c, n, [call], false) ==
              match Apply(c, n, call)
              case Raised(_) => RolledBack
              case Done(c1, n1, _) => Committed(c1, n1, Marks(c, n, call.op))
  {
    hide Inv, Apply, Marks, ValidOp;
    ApplyKeepsInv(c, n, call);
    assert [call][1..] == [];
    var r := Apply(c, n, call);
    if r.Done? {
      assert RunCalls(r.content, r.next, [], Marks(c, n, call.op)) ==
             Committed(r.content, r.next, Marks(c, n, call.op));
    }
  }

  datatype Db = Db(content: Content, revision: nat, next: Id)

  ghost predicate Sound(db: Db) {
    Inv(db.content, db.next)
  }

  /** A committed unit bumps the revision exactly when it was marked visible. */
  ghost function RunUnit(db: Db, calls: seq<Call>): Db
    requires Sound(db) && ValidCalls(calls)
  {
    match RunCalls(db.content, db.next, calls, false)
    case RolledBack => db
    case Committed(c, n, visible) => Db(c, if visible then db.revision + 1 else db.revision, n)
  }

  lemma {:induction false} RunCallsKeep(c: Content, n: Id, calls: seq<Call>, visible: bool)
    requires Inv(c, n) && ValidCalls(calls)
    ensures var u := RunCalls(c, n, calls, visible);
      u.Committed? ==>
        && Inv(u.content, u.next) && n <= u.next && Grows(c, u.content)
        && (visible ==> u.visible)
        && (!u.visible ==> u.content == c && u.next == n)
    decreases |calls|
  {
    hide Inv, Apply, Grows, Marks, ValidOp;
    if calls == [] {
      GrowsReflexive(c);
    } else {
      ApplyKeepsInv(c, n, calls[0]);
      ApplyGrows(c, n, calls[0]);
      MarksMeansChanged(c, n, calls[0]);
      var r := Apply(c, n, calls[0]);
      if r.Done? {
        var seen := visible || Marks(c, n, calls[0].op);
        RunCallsKeep(r.content, r.next, calls[1..], seen);
        var u := RunCalls(r.content, r.next, calls[1..], seen);
        if u.Committed? {
          GrowsTransitively(c, r.content, u.content);
        }
      }
    }
  }

  /** Whether some operation of a unit changed a row. */
  ghost predicate SomeChange(c: Content, n: Id, calls: seq<Call>)
    requires Inv(c, n) && ValidCalls(calls)
    decreases |calls|
  {
    hide Inv, Apply;
    calls != [] &&
    (ApplyKeepsInv(c, n, calls[0]);
     match Apply(c, n, calls[0])
     case Raised(_) => false
     case Done(c1, n1, _) => c1 != c || SomeChange(c1, n1, calls[1..]))
  }

  /** A unit is visible at its end exactly when it was before or some operation changed a row. */
  lemma {:induction false} VisibleIffChanged(c: Content, n: Id, calls: seq<Call>, visible: bool)
    requires Inv(c, n) && ValidCalls(calls)
    ensures var u := RunCalls(c, n, calls, visible); u.Committed? ==> (u.visible <==> visible || SomeChange(c, n, calls))
    decreases |calls|
  {
    hide Inv, Apply, Grows, Marks, ValidOp;
    if calls != [] {
      ApplyKeepsInv(c, n, calls[0]);
      MarksMeansChanged(c, n, calls[0]);
      var r := Apply(c, n, calls[0]);
      if r.Done? {
        VisibleIffChanged(r.content, r.next, calls[1..], visible || Marks(c, n, calls[0].op));
      }
    }
  }

  /** A unit keeps the invariant and everything identified; the revision moves by one exactly when the unit is
      committed and some operation of it changed a row. */
  lemma UnitKeeps(db: Db, calls: seq<Call>)
    requires Sound(db) && ValidCalls(calls)
    ensures var after := RunUnit(db, calls);
      && Sound(after) && Grows(db.content, after.content)
      && after.revision == db.revision + (
           if RunCalls(db.content, db.next, calls, false).Committed? && SomeChange(db.content, db.next, calls)
           then 1 else 0)
      && (after.revision == db.revision ==> after.content == db.content)
  {
    hide Inv, Grows, RunCalls, SomeChange;
    RunCallsKeep(db.content, db.next, calls, false);
    VisibleIffChanged(db.content, db.next, calls, false);
    GrowsReflexive(db.content);
  }

  lemma {:induction false} RunCallsConcat(c: Content, n: Id, us: seq<Call>, vs: seq<Call>, visible: bool)
    requires Inv(c, n) && ValidCalls(us) && ValidCalls(vs)
    ensures ValidCalls(us + vs)
    ensures var u := RunCalls(c, n, us, visible);
      && (u.Committed? ==> Inv(u.content, u.next))
      && RunCalls(c, n, us + vs, visible) ==
         if u.Committed? then RunCalls(u.content, u.next, vs, u.visible) else RolledBack
    decreases |us|
  {
    hide Inv, Apply, Marks, ValidOp;
    if us == [] {
      assert us + vs == vs;
    } else {
      assert (us + vs)[0] == us[0] && (us + vs)[1..] == us[1..] + vs;
      ApplyKeepsInv(c, n, us[0]);
      var r := Apply(c, n, us[0]);
      if r.Done? {
        RunCallsConcat(r.content, r.next, us[1..], vs, visible || Marks(c, n, us[0].op));
      }
    }
  }

  /** _revision_after_commit, as an operation sees it at its end: what a commit right then would make of it. */
  ghost function ReportedRevision(db: Db, done: seq<Call>): nat
    requires Sound(db) && ValidCalls(done)
  {
    RunUnit(db, done).revision
  }

  /** The revision that an operation reports is the committed one, unless the unit makes its first change later. */
  lemma ReportIsCommittedRevision(db: Db, us: seq<Call>, call: Call, vs: seq<Call>)
    requires Sound(db) && ValidCalls(us) && ValidOp(call.op) && ValidCalls(vs)
    ensures ValidCalls(us + [call]) && ValidCalls(us + [call] + vs)
    ensures var u := RunCalls(db.content, db.next, us + [call], false);
      u.Committed? ==>
        && Inv(u.content, u.next)
        && (RunCalls(db.content, db.next, us + [call] + vs, false).Committed? ==>
              (ReportedRevision(db, us + [call]) == RunUnit(db, us + [call] + vs).revision
               <==> SomeChange(db.content, db.next, us + [call]) || !SomeChange(u.content, u.next, vs)))
  {
    hide Inv, RunCalls, SomeChange, ValidOp;
    var done := us + [call];
    RunCallsConcat(db.content, db.next, done, vs, false);
    VisibleIffChanged(db.content, db.next, done, false);
    var u := RunCalls(db.content, db.next, done, false);
    if u.Committed? {
      VisibleIffChanged(u.content, u.next, vs, u.visible);
    }
  }

  // ---- histories

  ghost predicate ValidUnits(units: seq<seq<Call>>) {
    forall i | 0 <= i < |units| :: ValidCalls(units[i])
  }

  ghost function Play(db: Db, units: seq<seq<Call>>): Db
    requires Sound(db) && ValidUnits(units)
    decreases |units|
  {
    hide Inv, RunUnit, Grows;
    if units == [] then db
    else
      UnitKeeps(db, units[0]);
      Play(RunUnit(db, units[0]), units[1..])
  }

  const INITIAL_DB := Db(INITIAL_CONTENT, 0, 0)

  /** The catalog after a history that starts with the first migration. */
  ghost function Reach(units: seq<seq<Call>>): Db
    requires ValidUnits(units)
  {
    InitialInv();
    Play(INITIAL_DB, units)
  }

  lemma ReachIsSound(units: seq<seq<Call>>)
    requires ValidUnits(units)
    ensures Sound(Reach(units))
  {
    hide Inv, Play, Grows;
    InitialInv();
    HistoryKeeps(INITIAL_DB, units);
  }

  /** Every reachable catalog keeps the invariant, and its revision is a version of its content. */
  lemma {:induction false} HistoryKeeps(db: Db, units: seq<seq<Call>>)
    requires Sound(db) && ValidUnits(units)
    ensures var after := Play(db, units);
      && Sound(after) && Grows(db.content, after.content)
      && db.revision <= after.revision
      && (after.revision == db.revision ==> after.content == db.content)
    decreases |units|
  {
    hide Sound, Grows, RunUnit, ValidCalls;
    if units == [] {
      GrowsReflexive(db.content);
    } else {
      UnitKeeps(db, units[0]);
      var next := RunUnit(db, units[0]);
      HistoryKeeps(next, units[1..]);
      GrowsTransitively(db.content, next.content, Play(next, units[1..]).content);
    }
  }

  lemma {:induction false} PlayConcat(db: Db, us: seq<seq<Call>>, vs: seq<seq<Call>>)
    requires Sound(db) && ValidUnits(us) && ValidUnits(vs)
    ensures ValidUnits(us + vs)
    ensures Sound(Play(db, us)) && Play(db, us + vs) == Play(Play(db, us), vs)
    decreases |us|
  {
    hide Sound, RunUnit, RunCalls, SomeChange, Grows, ValidCalls;
    HistoryKeeps(db, us);
    if us == [] {
      assert us + vs == vs;
    } else {
      UnitKeeps(db, us[0]);
      assert (us + vs)[1..] == us[1..] + vs;
      PlayConcat(RunUnit(db, us[0]), us[1..], vs);
    }
  }

  /** Two snapshots of one history with equal revisions have equal content. */
  lemma EqualRevisionsEqualContent(us: seq<seq<Call>>, vs: seq<seq<Call>>)
    requires ValidUnits(us) && ValidUnits(vs)
    ensures ValidUnits(us + vs)
    ensures Reach(us).revision == Reach(us + vs).revision ==> Reach(us).content == Reach(us + vs).content
    ensures Reach(us).revision <= Reach(us + vs).revision && Grows(Reach(us).content, Reach(us + vs).content)
  {
    hide Inv, RunUnit, ValidCalls, Play, Grows;
    InitialInv();
    PlayConcat(INITIAL_DB, us, vs);
    ReachIsSound(us);
    HistoryKeeps(Reach(us), vs);
  }

  // ---- conservation

  datatype Which = Papers | Versions | Updates

  function Pick(c: Counters, which: Which): nat {
    match which
    case Papers => c.newPapers
    case Versions => c.newVersions
    case Updates => c.metadataUpdates
  }

  predicate Counted(row: ItemRow, which: Which) {
    match which
    case Papers => row.createdPaper
    case Versions => row.outcome == NewVersion
    case Updates => row.outcome == MetadataUpdate
  }

  /** The sum of one counter over a set of runs. */
  ghost function SumCounters(runs: map<Id, RunRow>, ids: set<Id>, which: Which): nat
    requires ids <= runs.Keys
  {
    if ids == {} then 0
    else var r := Any(ids); Pick(runs[r].counters, which) + SumCounters(runs, ids - {r}, which)
  }

  function CountedIn(items: map<ItemKey, ItemRow>, ids: set<Id>, which: Which): set<ItemKey> {
    set k | k in items && k.run in ids && Counted(items[k], which)
  }

  lemma TallyCounts(items: map<ItemKey, ItemRow>, run: Id, which: Which)
    ensures Pick(Tally(items, run), which) == |CountedIn(items, {run}, which)|
  {
    match which
    case Papers =>
      assert CountedIn(items, {run}, which) == set k | k in items && k.run == run && items[k].createdPaper;
    case Versions =>
      assert CountedIn(items, {run}, which) == set k | k in items && k.run == run && items[k].outcome == NewVersion;
    case Updates =>
      assert CountedIn(items, {run}, which) == set k | k in items && k.run == run && items[k].outcome == MetadataUpdate;
  }

  lemma CountedSplit(items: map<ItemKey, ItemRow>, ids: set<Id>, r: Id, which: Which)
    requires r in ids
    ensures |CountedIn(items, ids, which)| == |CountedIn(items, {r}, which)| + |CountedIn(items, ids - {r}, which)|
  {
    var a, b := CountedIn(items, {r}, which), CountedIn(items, ids - {r}, which);
    assert CountedIn(items, ids, which) == a + b;
    assert a !! b;
  }

  lemma {:induction false} SumIsCount(g: Ingest, ids: set<Id>, which: Which)
    requires ids <= g.runs.Keys
    requires forall r :: r in ids ==> g.runs[r].counters == Tally(g.items, r)
    ensures SumCounters(g.runs, ids, which) == |CountedIn(g.items, ids, which)|
  {
    hide Tally, Pick;
    if ids == {} {
      assert CountedIn(g.items, ids, which) == {};
    } else {
      hide CountedIn;
      var r := Any(ids);
      SumIsCount(g, ids - {r}, which);
      TallyCounts(g.items, r, which);
      CountedSplit(g.items, ids, r, which);
    }
  }

  lemma AllCounted(c: Content, which: Which)
    requires ItemsOk(c.corpus, c.ingest)
    ensures |CountedIn(c.ingest.items, c.ingest.runs.Keys, which)| ==
              match which
              case Papers => TotalCreated(c.ingest.items)
              case Versions => Total(c.ingest.items, NewVersion)
              case Updates => Total(c.ingest.items, MetadataUpdate)
  {
    var items := c.ingest.items;
    var all := CountedIn(items, c.ingest.runs.Keys, which);
    forall k | k in items
      ensures k.run in c.ingest.runs.Keys
    {
      assert ItemOk(c.corpus, c.ingest, k);
    }
    match which
    case Papers => assert all == set k | k in items && items[k].createdPaper;
    case Versions => assert all == set k | k in items && items[k].outcome == NewVersion;
    case Updates => assert all == set k | k in items && items[k].outcome == MetadataUpdate;
  }

  /** Once no run is running, the totals of the runs account for every paper, version and observation. */
  lemma RunTotalsAccountForCorpus(units: seq<seq<Call>>)
    requires ValidUnits(units)
    requires forall r :: r in Reach(units).content.ingest.runs ==> Reach(units).content.ingest.runs[r].status != Running
    ensures var c := Reach(units).content;
      var runs := c.ingest.runs;
      && |c.corpus.papers| == SumCounters(runs, runs.Keys, Papers)
      && |c.corpus.versions| == SumCounters(runs, runs.Keys, Versions)
      && |c.corpus.observations| == SumCounters(runs, runs.Keys, Versions) + SumCounters(runs, runs.Keys, Updates)
  {
    hide Inv, Play, SumCounters;
    ReachIsSound(units);
    var db := Reach(units);
    TotalsAccount(db.content, db.next);
  }

  lemma TotalsAccount(c: Content, n: Id)
    requires Inv(c, n)
    requires forall r :: r in c.ingest.runs ==> c.ingest.runs[r].status != Running
    ensures var runs := c.ingest.runs;
      && |c.corpus.papers| == SumCounters(runs, runs.Keys, Papers)
      && |c.corpus.versions| == SumCounters(runs, runs.Keys, Versions)
      && |c.corpus.observations| == SumCounters(runs, runs.Keys, Versions) + SumCounters(runs, runs.Keys, Updates)
  {
    hide CorpusOk, BlobsOk, ShelfOk, FreshFrom, LinksOk, ItemsOk, OriginsOk, ErrorsOk, EvidenceOk, SnapshotsOk, RunOk;
    hide Total, TotalCreated, Tally;
    var g := c.ingest;
    ConservedMeans(c.corpus, g.items);
    forall r | r in g.runs
      ensures g.runs[r].counters == Tally(g.items, r)
    {
      assert r in g.selected.Keys;
      assert StatusOk(g, r);
    }
    SumIsCount(g, g.runs.Keys, Papers);
    SumIsCount(g, g.runs.Keys, Versions);
    SumIsCount(g, g.runs.Keys, Updates);
    AllCounted(c, Papers);
    AllCounted(c, Versions);
    AllCounted(c, Updates);
  }
}
