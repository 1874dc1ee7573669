/** PrepareDiscovery.prepare: what it selects, what its digest covers, and the plan that ingestion executes. */
module Preparation {
  import opened Base
  import opened CatalogSchema
  import opened CatalogSpec
  import opened CanonicalJson
  import opened Digests
  import opened Discovery
  import BlobStore
  import Execution

  // ---- selection

  datatype RecordLocator = RecordLocator(page: nat, ordinal: nat, key: RecordKey)

  function LocatorOf(r: Record): RecordLocator {
    RecordLocator(r.page, r.ordinal, r.key)
  }

  /** The records of all pages, in order. */
  function AllRecords(pages: seq<Page>): seq<Record> {
    if pages == [] then [] else AllRecords(pages[..|pages| - 1]) + pages[|pages| - 1].records
  }

  /** The records with an observation. */
  function Observable(records: seq<Record>): seq<Record> {
    if records == [] then []
    else
      var init, last := records[..|records| - 1], records[|records| - 1];
      Observable(init) + if last.observed.Some? then [last] else []
  }

  /** The comprehension and the slice of prepare. */
  function Selection(b: Batch, limit: nat): seq<Record> {
    TakeUpTo(Observable(AllRecords(b.pages)), limit)
  }

  /** positions: the last place at which a locator occurs. */
  function PositionOf(records: seq<Record>, l: RecordLocator): (p: int)
    ensures -1 <= p < |records| && (p >= 0 ==> LocatorOf(records[p]) == l)
    ensures forall i :: p < i < |records| ==> LocatorOf(records[i]) != l
  {
    if records == [] then -1
    else if LocatorOf(records[|records| - 1]) == l then |records| - 1
    else PositionOf(records[..|records| - 1], l)
  }

  /** The checks of _validate_selected_records. */
  predicate ValidSelection(b: Batch, selected: seq<RecordLocator>) {
    var records := AllRecords(b.pages);
    && Distinct(selected)
    && (forall i | 0 <= i < |selected| :: PositionOf(records, selected[i]) >= 0)
    && (forall i | 0 <= i < |selected| :: HasObservation(records, selected[i]))
    && (forall i, j | 0 <= i < j < |selected| ::
          PositionOf(records, selected[i]) <= PositionOf(records, selected[j]))
  }

  predicate Precedes(a: Record, b: Record) {
    a.page < b.page || (a.page == b.page && a.ordinal < b.ordinal)
  }

  ghost predicate InOrder(records: seq<Record>) {
    forall i, j :: 0 <= i < j < |records| ==> Precedes(records[i], records[j])
  }

  lemma {:induction false} RecordsInOrder(pages: seq<Page>)
    requires forall p :: 0 <= p < |pages| ==> PageFits(pages[p], p)
    ensures InOrder(AllRecords(pages))
    ensures forall i :: 0 <= i < |AllRecords(pages)| ==>
      var r := AllRecords(pages)[i];
      r.page < |pages| && r.ordinal < |pages[r.page].records| && pages[r.page].records[r.ordinal] == r && RecordFits(r, r.page, r.ordinal)
  {
    hide RecordFits;
    if pages != [] {
      var init, last := pages[..|pages| - 1], pages[|pages| - 1];
      RecordsInOrder(init);
      assert PageFits(last, |init|);
      var records, m := AllRecords(pages), |AllRecords(init)|;
      forall i | 0 <= i < |records|
        ensures var r := records[i];
          r.page < |pages| && r.ordinal < |pages[r.page].records| && pages[r.page].records[r.ordinal] == r && RecordFits(r, r.page, r.ordinal)
        ensures i >= m ==> records[i].page == |init| && records[i].ordinal == i - m
      {
        if i >= m {
          assert records[i] == last.records[i - m];
          FitsHere(last.records[i - m], |init|, i - m);
        } else {
          assert records[i] == AllRecords(init)[i];
        }
      }
    }
  }

  lemma FitsHere(r: Record, page: nat, ordinal: nat)
    requires RecordFits(r, page, ordinal)
    ensures r.page == page && r.ordinal == ordinal
  {
  }

  lemma {:induction false} ObservableInOrder(records: seq<Record>)
    requires InOrder(records)
    ensures InOrder(Observable(records))
    ensures forall r :: r in Observable(records) <==> r in records && r.observed.Some?
  {
    if records != [] {
      var init, last := records[..|records| - 1], records[|records| - 1];
      ObservableInOrder(init);
      assert forall r :: r in records <==> r in init || r == last;
      forall r | r in Observable(init)
        ensures Precedes(r, last)
      {
        var k :| 0 <= k < |init| && init[k] == r;
        assert records[k] == r;
      }
    }
  }

  /** In a valid batch a locator occurs once, so positions follow page and record order. */
  lemma PositionIs(records: seq<Record>, k: nat)
    requires InOrder(records) && k < |records|
    ensures PositionOf(records, LocatorOf(records[k])) == k
  {
    var p := PositionOf(records, LocatorOf(records[k]));
    assert p >= k;
    assert LocatorOf(records[p]) == LocatorOf(records[k]);
  }

  function Locators(records: seq<Record>): seq<RecordLocator> {
    seq(|records|, i requires 0 <= i < |records| => LocatorOf(records[i]))
  }

  lemma SelectedAt(records: seq<Record>, r: Record) returns (k: nat)
    requires InOrder(records) && r in Observable(records)
    ensures k < |records| && records[k] == r && r.observed.Some? && PositionOf(records, LocatorOf(r)) == k
  {
    ObservableInOrder(records);
    k :| 0 <= k < |records| && records[k] == r;
    PositionIs(records, k);
  }

  lemma SelectedOrder(records: seq<Record>, r: Record, s: Record)
    requires InOrder(records) && r in Observable(records) && s in Observable(records) && Precedes(r, s)
    ensures PositionOf(records, LocatorOf(r)) <= PositionOf(records, LocatorOf(s))
  {
    var j := SelectedAt(records, r);
    var k := SelectedAt(records, s);
    assert records[j] == r && records[k] == s;
  }

  predicate HasObservation(records: seq<Record>, l: RecordLocator) {
    exists k | 0 <= k < |records| :: LocatorOf(records[k]) == l && records[k].observed.Some?
  }

  /** What prepare selects passes every check of the selection. */
  lemma SelectionIsValid(b: Batch, limit: nat)
    requires ValidBatch(b)
    ensures ValidSelection(b, Locators(Selection(b, limit)))
  {
    hide PageFits, PositionOf, Observable, AllRecords;
    RecordsInOrder(b.pages);
    var records := AllRecords(b.pages);
    ObservableInOrder(records);
    var chosen := Selection(b, limit);
    var selected := Locators(chosen);
    forall i | 0 <= i < |selected|
      ensures chosen[i] in Observable(records)
      ensures HasObservation(records, selected[i]) && PositionOf(records, selected[i]) >= 0
    {
      assert chosen[i] in Observable(records);
      var k := SelectedAt(records, chosen[i]);
    }
    forall i, j | 0 <= i < j < |selected|
      ensures selected[i] != selected[j] && PositionOf(records, selected[i]) <= PositionOf(records, selected[j])
    {
      assert Precedes(chosen[i], chosen[j]);
      SelectedOrder(records, chosen[i], chosen[j]);
    }
  }

  // ---- the digest

  datatype Query = Query(
    text: Option<string>, categories: seq<string>, authors: seq<string>, identifiers: seq<string>,
    dateFrom: Option<Time>, dateTo: Option<Time>, limit: nat, cursor: Option<string>)

  function TextsJson(values: seq<string>): Json {
    List(seq(|values|, i requires 0 <= i < |values| => Str(values[i])))
  }

  /** canonical_data of DiscoveryQuery. */
  function QueryJson(q: Query): Json {
    Obj([
      Field("authors", TextsJson(q.authors)), Field("categories", TextsJson(q.categories)),
      Field("cursor", TextJson(q.cursor)), Field("date_from", TimeJson(q.dateFrom)), Field("date_to", TimeJson(q.dateTo)),
      Field("identifiers", TextsJson(q.identifiers)), Field("limit", Int(q.limit)), Field("text", TextJson(q.text))])
  }

  /** canonical_data of RecordLocator. */
  function LocatorJson(l: RecordLocator): Json {
    Obj([
      Field("page_ordinal", Int(l.page)), Field("raw_record_sha256", DigestJson(l.key.raw)),
      Field("record_ordinal", Int(l.ordinal)), Field("source_item_id", TextJson(l.key.item)),
      Field("source_version_key", TextJson(l.key.version))])
  }

  function PageJson(p: Page, ordinal: nat): Json {
    Obj([
      Field("capture_id", NumberJson(p.capture)), Field("page_ordinal", Int(ordinal)),
      Field("request_fingerprint", DigestJson(p.fingerprint)), Field("retrieved_at", NumberJson(p.retrievedAt)),
      Field("sha256", DigestJson(Sha256(p.payload)))])
  }

  function PagesJson(pages: seq<Page>): seq<Json> {
    seq(|pages|, i requires 0 <= i < |pages| => PageJson(pages[i], i))
  }

  function LocatorsJson(selected: seq<RecordLocator>): seq<Json> {
    seq(|selected|, i requires 0 <= i < |selected| => LocatorJson(selected[i]))
  }

  /** prepared_discovery_digest. */
  function PreparedDigest(source: SourceId, query: Query, pages: seq<Page>, selected: seq<RecordLocator>): Sha256 {
    DigestOf(Obj([
      Field("pages", List(PagesJson(pages))), Field("query", QueryJson(query)),
      Field("schema_version", Str("prepared-discovery-v1")), Field("selected_records", List(LocatorsJson(selected))),
      Field("source_id", Str(source))]))
  }

  /** What the digest sees of a page: not its media type, its next cursor, or any field of its observations. */
  predicate SameIdentity(p: Page, q: Page) {
    p.capture == q.capture && p.fingerprint == q.fingerprint && p.retrievedAt == q.retrievedAt && p.payload == q.payload
  }

  predicate SamePages(ps: seq<Page>, qs: seq<Page>) {
    |ps| == |qs| && forall i | 0 <= i < |ps| :: SameIdentity(ps[i], qs[i])
  }

  lemma TextsJsonInjective(a: seq<string>, b: seq<string>)
    requires TextsJson(a) == TextsJson(b)
    ensures a == b
  {
    var s, t := TextsJson(a).items, TextsJson(b).items;
    forall i | 0 <= i < |a|
      ensures a[i] == b[i]
    {
      assert s[i] == t[i];
    }
  }

  lemma QueryJsonInjective(a: Query, b: Query)
    requires QueryJson(a) == QueryJson(b)
    ensures a == b
  {
    hide TextsJson, TimeJson;
    var s, t := QueryJson(a).fields, QueryJson(b).fields;
    assert s[0] == t[0] && s[1] == t[1] && s[2] == t[2] && s[3] == t[3];
    assert s[4] == t[4] && s[5] == t[5] && s[6] == t[6] && s[7] == t[7];
    TextsJsonInjective(a.authors, b.authors);
    TextsJsonInjective(a.categories, b.categories);
    TextsJsonInjective(a.identifiers, b.identifiers);
    TimeJsonInjective(a.dateFrom, b.dateFrom);
    TimeJsonInjective(a.dateTo, b.dateTo);
  }

  lemma LocatorJsonInjective(a: RecordLocator, b: RecordLocator)
    requires LocatorJson(a) == LocatorJson(b)
    ensures a == b
  {
    hide DigestJson;
    var s, t := LocatorJson(a).fields, LocatorJson(b).fields;
    assert s[0] == t[0] && s[1] == t[1] && s[2] == t[2] && s[3] == t[3] && s[4] == t[4];
    DigestJsonInjective(a.key.raw, b.key.raw);
  }

  lemma PageJsonIdentifies(p: Page, q: Page, ordinal: nat)
    ensures PageJson(p, ordinal) == PageJson(q, ordinal) <==> SameIdentity(p, q)
  {
    hide DigestJson, NumberJson;
    var s, t := PageJson(p, ordinal).fields, PageJson(q, ordinal).fields;
    if PageJson(p, ordinal) == PageJson(q, ordinal) {
      assert s[0] == t[0] && s[2] == t[2] && s[3] == t[3] && s[4] == t[4];
      NumberJsonInjective(p.capture, q.capture);
      DigestJsonInjective(p.fingerprint, q.fingerprint);
      NumberJsonInjective(p.retrievedAt, q.retrievedAt);
      DigestJsonInjective(Sha256(p.payload), Sha256(q.payload));
    }
  }

  /** Two prepared discoveries have the same digest exactly when they have the same source, query, page
      identities and payloads, and selected locators. */
  lemma DigestCovers(
    source: SourceId, query: Query, pages: seq<Page>, selected: seq<RecordLocator>,
    source': SourceId, query': Query, pages': seq<Page>, selected': seq<RecordLocator>)
    ensures PreparedDigest(source, query, pages, selected) == PreparedDigest(source', query', pages', selected')
      <==> source == source' && query == query' && SamePages(pages, pages') && selected == selected'
  {
    hide DigestOf, QueryJson, PageJson, LocatorJson, SameIdentity;
    forall i | 0 <= i < |pages| && i < |pages'|
      ensures PagesJson(pages)[i] == PagesJson(pages')[i] <==> SameIdentity(pages[i], pages'[i])
    {
      PageJsonIdentifies(pages[i], pages'[i], i);
    }
    if PreparedDigest(source, query, pages, selected) == PreparedDigest(source', query', pages', selected') {
      var a := Obj([
        Field("pages", List(PagesJson(pages))), Field("query", QueryJson(query)),
        Field("schema_version", Str("prepared-discovery-v1")), Field("selected_records", List(LocatorsJson(selected))),
        Field("source_id", Str(source))]);
      var b := Obj([
        Field("pages", List(PagesJson(pages'))), Field("query", QueryJson(query')),
        Field("schema_version", Str("prepared-discovery-v1")), Field("selected_records", List(LocatorsJson(selected'))),
        Field("source_id", Str(source'))]);
      DigestInjective(a, b);
      assert a.fields[0] == b.fields[0] && a.fields[1] == b.fields[1] && a.fields[3] == b.fields[3];
      assert a.fields[4] == b.fields[4];
      QueryJsonInjective(query, query');
      assert PagesJson(pages) == PagesJson(pages') && LocatorsJson(selected) == LocatorsJson(selected');
      assert |pages| == |PagesJson(pages)| && |selected| == |LocatorsJson(selected)|;
      forall i | 0 <= i < |selected|
        ensures selected[i] == selected'[i]
      {
        assert LocatorsJson(selected)[i] == LocatorsJson(selected')[i];
        LocatorJsonInjective(selected[i], selected'[i]);
      }
    }
    if SamePages(pages, pages') {
      assert PagesJson(pages) == PagesJson(pages');
    }
  }

  // ---- the plan

  function AttachmentOf(p: Page): PageAttachment {
    PageAttachment(
      p.capture, BlobStore.RefOf(p.payload, p.mediaType), p.fingerprint, p.retrievedAt, p.nextCursor,
      seq(|p.records|, i requires 0 <= i < |p.records| => p.records[i].key))
  }

  /** What ingestion attaches and records for a batch and a selection of its records. */
  function PlanOf(b: Batch, chosen: seq<Record>, digest: Sha256, query: Query): Execution.Plan
    requires forall i :: 0 <= i < |chosen| ==> chosen[i].observed.Some?
  {
    Execution.Plan(
      "arxiv", digest, QueryText(QueryJson(query)),
      seq(|b.pages|, i requires 0 <= i < |b.pages| => AttachmentOf(b.pages[i])),
      seq(|chosen|, i requires 0 <= i < |chosen| => Locator(chosen[i].page, chosen[i].ordinal)),
      seq(|chosen|, i requires 0 <= i < |chosen| => chosen[i].observed.value))
  }

  lemma {:induction false} ChosenComeFromArxiv(records: seq<Record>)
    ensures forall r :: r in records && r.observed.Some? ==> r.observed.value in ObservationsOf(records)
  {
    if records != [] {
      var init, last := records[..|records| - 1], records[|records| - 1];
      ChosenComeFromArxiv(init);
      forall r | r in records && r.observed.Some?
        ensures r.observed.value in ObservationsOf(records)
      {
        assert r in init || r == last;
      }
    }
  }

  lemma {:induction false} FlattenedIsObservations(pages: seq<Page>)
    ensures forall r :: r in AllRecords(pages) && r.observed.Some? ==> r.observed.value in Flattened(pages)
  {
    if pages != [] {
      var init, last := pages[..|pages| - 1], pages[|pages| - 1];
      FlattenedIsObservations(init);
      ChosenComeFromArxiv(last.records);
    }
  }

  lemma PageHasMedia(p: Page, page: nat)
    requires PageFits(p, page)
    ensures p.mediaType != ""
  {
  }

  /** A valid batch and what prepare selects of it make a plan that ingestion accepts. */
  lemma PreparedPlanIsValid(b: Batch, limit: nat, digest: Sha256, query: Query)
    requires ValidBatch(b)
    ensures forall i :: 0 <= i < |Selection(b, limit)| ==> Selection(b, limit)[i].observed.Some?
    ensures Execution.ValidPlan(PlanOf(b, Selection(b, limit), digest, query))
  {
    hide PageFits, ValidObserved, Flattened, AllRecords, Observable, QueryText, QueryJson;
    assert IsQueryText(QueryText(QueryJson(query)));
    RecordsInOrder(b.pages);
    ObservableInOrder(AllRecords(b.pages));
    FlattenedIsObservations(b.pages);
    var chosen := Selection(b, limit);
    forall i | 0 <= i < |chosen|
      ensures chosen[i] in AllRecords(b.pages) && chosen[i].observed.Some?
    {
      assert chosen[i] in Observable(AllRecords(b.pages));
    }
    var plan := PlanOf(b, chosen, digest, query);
    forall i | 0 <= i < |plan.pages|
      ensures StoredRef(plan.pages[i].blob)
    {
      PageHasMedia(b.pages[i], i);
    }
    forall i, j | 0 <= i < j < |plan.selected|
      ensures plan.selected[i] != plan.selected[j]
    {
      assert Precedes(chosen[i], chosen[j]);
    }
    forall i | 0 <= i < |plan.selected|
      ensures Execution.ObservedAt(plan, i)
    {
      var k :| 0 <= k < |AllRecords(b.pages)| && AllRecords(b.pages)[k] == chosen[i];
      assert chosen[i].observed.value in b.records;
    }
  }

  // ---- what is selected

  lemma {:induction false} ObservationsConcat(records: seq<Record>, more: seq<Record>)
    ensures ObservationsOf(records + more) == ObservationsOf(records) + ObservationsOf(more)
  {
    if more == [] {
      assert records + more == records;
    } else {
      var init, last := more[..|more| - 1], more[|more| - 1];
      assert (records + more)[..|records + more| - 1] == records + init;
      ObservationsConcat(records, init);
    }
  }

  lemma {:induction false} FlattenedIsAll(pages: seq<Page>)
    ensures ObservationsOf(AllRecords(pages)) == Flattened(pages)
  {
    hide ObservationsOf;
    if pages == [] {
      NoObservations();
    } else {
      var init, last := pages[..|pages| - 1], pages[|pages| - 1];
      FlattenedIsAll(init);
      ObservationsConcat(AllRecords(init), last.records);
    }
  }

  lemma {:induction false} ObservableObservations(records: seq<Record>)
    ensures var s := Observable(records);
      && |s| == |ObservationsOf(records)|
      && forall i | 0 <= i < |s| :: s[i].observed == Some(ObservationsOf(records)[i])
  {
    if records != [] {
      ObservableObservations(records[..|records| - 1]);
    }
  }

  /** The selection has the observations of the batch, in order, up to the limit, each at its own place. */
  lemma SelectionReads(b: Batch, limit: nat)
    requires ValidBatch(b)
    ensures var chosen := Selection(b, limit);
      && |chosen| == (if |b.records| <= limit then |b.records| else limit)
      && forall i | 0 <= i < |chosen| ::
           && chosen[i].observed == Some(b.records[i])
           && chosen[i].page == b.records[i].page < |b.pages|
           && chosen[i].ordinal == b.records[i].ordinal < |b.pages[chosen[i].page].records|
           && b.pages[chosen[i].page].records[chosen[i].ordinal] == chosen[i]
  {
    hide PageFits, Flattened, AllRecords, Observable, ObservationsOf, FromArxiv;
    FlattenedIsAll(b.pages);
    var all := AllRecords(b.pages);
    ObservableObservations(all);
    RecordsInOrder(b.pages);
    ObservableInOrder(all);
    forall r | r in Observable(all)
      ensures r.page < |b.pages| && r.ordinal < |b.pages[r.page].records| && b.pages[r.page].records[r.ordinal] == r
      ensures r.observed.Some? ==> r.observed.value.page == r.page && r.observed.value.ordinal == r.ordinal
    {
      var k :| 0 <= k < |all| && all[k] == r;
      assert RecordFits(r, r.page, r.ordinal);
    }
    var chosen := Selection(b, limit);
    forall i | 0 <= i < |chosen|
      ensures chosen[i] in Observable(all)
    {
      assert chosen[i] == Observable(all)[i];
    }
  }

  // ---- what the plan carries

  ghost predicate PageCarries(p: Page, a: PageAttachment) {
    && a.capture == p.capture && a.fingerprint == p.fingerprint && a.retrievedAt == p.retrievedAt
    && a.nextCursor == p.nextCursor
    && a.blob.sha == Sha256(p.payload) && a.blob.size == |p.payload| && a.blob.mediaType == p.mediaType
    && |a.records| == |p.records| && forall i | 0 <= i < |a.records| :: a.records[i] == p.records[i].key
  }

  /** The plan attaches every page, and records the observations of the batch up to the limit, in order, each at
      the place where it was read. */
  ghost predicate PlanCarries(b: Batch, limit: nat, plan: Execution.Plan) {
    && plan.source == "arxiv"
    && |plan.pages| == |b.pages| && (forall p | 0 <= p < |b.pages| :: PageCarries(b.pages[p], plan.pages[p]))
    && |plan.observed| == |plan.selected| == (if |b.records| <= limit then |b.records| else limit)
    && forall i | 0 <= i < |plan.observed| ::
         && plan.observed[i] == b.records[i]
         && plan.selected[i].page == b.records[i].page && plan.selected[i].ordinal == b.records[i].ordinal
  }

  lemma PreparedPlanCarries(b: Batch, limit: nat, digest: Sha256, query: Query)
    requires ValidBatch(b)
    ensures forall i :: 0 <= i < |Selection(b, limit)| ==> Selection(b, limit)[i].observed.Some?
    ensures PlanCarries(b, limit, PlanOf(b, Selection(b, limit), digest, query))
  {
    hide ValidBatch, Selection, QueryText, QueryJson;
    SelectionReads(b, limit);
  }

  /** discover and prepare: the plan for the first `limit` entries of distinct versions from the cursor on. */
  method Prepare(
    server: Server, cursor: Option<int>, query: Query, size: nat, maxPages: nat, firstCapture: Id, now: Time)
    returns (r: Discovery.Outcome, plan: Option<Execution.Plan>)
    requires ValidServer(server) && 1 <= query.limit && 1 <= size && 1 <= maxPages
    ensures plan.Some? <==> r.Discovered?
    ensures r.InvalidCursor? <==> cursor.Some? && cursor.value < 0
    ensures !r.InvalidCursor? ==>
      var start := if cursor.Some? then cursor.value else 0;
      && (r.PageLimit? <==> Exceeds(server, start, query.limit, size, maxPages))
      && (plan.Some? ==>
            && Execution.ValidPlan(plan.value)
            && Reads(plan.value.observed, TakeUpTo(Firsts(From(server.feed, start)), query.limit))
            && PlanCarries(r.batch, query.limit, plan.value) && PagesShow(server, start, r.batch.pages, now)
            && plan.value.query == QueryText(QueryJson(query))
            && plan.value.digest == PreparedDigest("arxiv", query, r.batch.pages, Locators(Selection(r.batch, query.limit))))
  {
    hide ValidBatch, Selection, QueryText, QueryJson, PlanCarries, Execution.ValidPlan, PagesShow, Exceeds, Firsts, From;
    hide PreparedDigest, PlanOf, ValidServer;
    var fetches;
    r, fetches := Discover(server, cursor, query.limit, size, maxPages, firstCapture, now);
    if !r.Discovered? {
      return r, None;
    }
    var chosen := Selection(r.batch, query.limit);
    var digest := PreparedDigest("arxiv", query, r.batch.pages, Locators(chosen));
    PreparedPlanIsValid(r.batch, query.limit, digest, query);
    PreparedPlanCarries(r.batch, query.limit, digest, query);
    SelectionReads(r.batch, query.limit);
    plan := Some(PlanOf(r.batch, chosen, digest, query));
    PlanNames(r.batch, chosen, digest, query);
    PlanReads(server, if cursor.Some? then cursor.value else 0, query.limit, r.batch, plan.value);
  }

  lemma PlanNames(b: Batch, chosen: seq<Record>, digest: Sha256, query: Query)
    requires forall i :: 0 <= i < |chosen| ==> chosen[i].observed.Some?
    ensures var plan := PlanOf(b, chosen, digest, query);
      plan.digest == digest && plan.query == QueryText(QueryJson(query))
  {
    hide QueryText, QueryJson;
  }

  lemma PlanReads(server: Server, start: nat, limit: nat, b: Batch, plan: Execution.Plan)
    requires Reads(b.records, TakeUpTo(Firsts(From(server.feed, start)), limit)) && PlanCarries(b, limit, plan)
    ensures Reads(plan.observed, TakeUpTo(Firsts(From(server.feed, start)), limit))
  {
    hide Firsts, From, PageCarries, Bare;
    assert |b.records| <= limit;
    assert plan.observed == b.records;
  }
}
