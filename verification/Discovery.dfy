/** ArxivClient.discover over a fixed feed: page by page, against filter, deduplicate and take. */
module Discovery {
  import opened Base
  import opened CatalogSchema
  import opened CanonicalJson

  /** An entry of the feed. Its observation, if it has one, is completed with page and ordinal when it is read. */
  datatype Entry = Entry(item: Option<string>, version: Option<string>, raw: Sha256, observed: Option<Observed>)

  /** The normalizer gives an observation the identity of its entry. */
  predicate ValidEntry(e: Entry) {
    e.observed.Some? ==>
      var o := e.observed.value;
      && ValidObserved(o) && o.source == "arxiv" && e.item == Some(o.item) && e.version == Some(o.versionKey)
      && o.page == 0 && o.ordinal == 0
  }

  /** A server that honours start and max_results; the payload and the fingerprint of a page are its own. */
  datatype Server = Server(
    feed: seq<Entry>, countsResults: bool, mediaType: string, payload: nat -> Bytes, fingerprint: nat -> Sha256)

  predicate AllValid(entries: seq<Entry>) {
    forall i | 0 <= i < |entries| :: ValidEntry(entries[i])
  }

  predicate ValidServer(s: Server) {
    s.mediaType != "" && AllValid(s.feed)
  }

  datatype Record = Record(page: nat, ordinal: nat, key: RecordKey, observed: Option<Observed>)

  datatype Page = Page(
    capture: Id, records: seq<Record>, payload: Bytes, mediaType: string, retrievedAt: Time, fingerprint: Sha256,
    nextCursor: Option<string>)

  datatype Batch = Batch(pages: seq<Page>, records: seq<Observed>)

  datatype Outcome = Discovered(batch: Batch) | InvalidCursor | PageLimit

  // ---- the simple form

  function VersionsIn(entries: seq<Entry>): set<string> {
    set i | 0 <= i < |entries| && entries[i].observed.Some? :: entries[i].observed.value.versionKey
  }

  /** The entries with an observation, the first of each version. */
  function Firsts(entries: seq<Entry>): seq<Entry> {
    if entries == [] then []
    else
      var init, last := entries[..|entries| - 1], entries[|entries| - 1];
      if last.observed.Some? && last.observed.value.versionKey !in VersionsIn(init) then Firsts(init) + [last]
      else Firsts(init)
  }

  /** An entry with an observation of a version that no earlier entry observes. */
  predicate IsFirst(entries: seq<Entry>, i: nat) {
    && i < |entries| && entries[i].observed.Some?
    && forall j | 0 <= j < i ::
         entries[j].observed.Some? ==> entries[j].observed.value.versionKey != entries[i].observed.value.versionKey
  }

  /** Firsts keeps exactly those entries, in order. */
  lemma {:induction false} FirstsAre(entries: seq<Entry>) returns (at: seq<nat>)
    ensures |at| == |Firsts(entries)| && forall k, m | 0 <= k < m < |at| :: at[k] < at[m]
    ensures forall k | 0 <= k < |at| :: IsFirst(entries, at[k]) && Firsts(entries)[k] == entries[at[k]]
    ensures forall i: nat :: IsFirst(entries, i) ==> i in at
  {
    if entries == [] {
      return [];
    }
    hide IsFirst, VersionsIn;
    var n := |entries| - 1;
    at := FirstsAre(entries[..n]);
    forall i: nat
      ensures IsFirst(entries, i) <==> IsFirst(entries[..n], i) || (i == n && IsFirst(entries, n))
      ensures IsFirst(entries[..n], i) ==> i < n && entries[..n][i] == entries[i]
    {
      FirstInPrefix(entries, n, i);
    }
    FirstMeansUnseen(entries, n);
    if IsFirst(entries, n) {
      at := at + [n];
    }
  }

  lemma FirstInPrefix(entries: seq<Entry>, n: nat, i: nat)
    requires n + 1 == |entries|
    ensures IsFirst(entries, i) <==> IsFirst(entries[..n], i) || (i == n && IsFirst(entries, n))
    ensures IsFirst(entries[..n], i) ==> i < n && entries[..n][i] == entries[i]
  {
    assert forall j | 0 <= j < n :: entries[..n][j] == entries[j];
  }

  lemma FirstMeansUnseen(entries: seq<Entry>, n: nat)
    requires n < |entries|
    ensures IsFirst(entries, n) <==>
              entries[n].observed.Some? && entries[n].observed.value.versionKey !in VersionsIn(entries[..n])
  {
    if !IsFirst(entries, n) && entries[n].observed.Some? {
      var j :| 0 <= j < n && entries[j].observed.Some?
        && entries[j].observed.value.versionKey == entries[n].observed.value.versionKey;
      assert entries[..n][j] == entries[j];
    }
  }

  function TakeUpTo<T>(s: seq<T>, limit: nat): seq<T> {
    if |s| <= limit then s else s[..limit]
  }

  /** An observation without the place it was read at. */
  function Bare(o: Observed): Observed {
    o.(page := 0, ordinal := 0)
  }

  /** The observations read are those of the entries, in order. */
  predicate Reads(records: seq<Observed>, entries: seq<Entry>) {
    |records| == |entries|
    && forall i | 0 <= i < |records| :: Some(Bare(records[i])) == entries[i].observed
  }

  function From(feed: seq<Entry>, start: nat): seq<Entry> {
    if start <= |feed| then feed[start..] else []
  }

  function Min(a: nat, b: nat): nat {
    if a < b then a else b
  }

  /** How many entries have been read after k pages. */
  function Position(rest: seq<Entry>, limit: nat, size: nat, k: nat): (p: nat)
    ensures p <= |rest|
  {
    if k == 0 then 0
    else
      var p := Position(rest, limit, size, k - 1);
      var room := limit - |Firsts(rest[..p])|;
      if room <= 0 then p else Min(|rest|, p + Min(size, room))
  }

  /** The page cap cuts the search short: after the last allowed page there is still room and, as far as the
      server tells, something left to read. */
  predicate Exceeds(server: Server, start: nat, limit: nat, size: nat, maxPages: nat)
    requires maxPages >= 1
  {
    var rest := From(server.feed, start);
    var p := Position(rest, limit, size, maxPages);
    && |Firsts(rest[..p])| < limit
    && if server.countsResults then p < |rest| else Position(rest, limit, size, maxPages - 1) < p
  }

  lemma {:induction false} FirstsPrefix(entries: seq<Entry>, k: nat)
    requires k <= |entries|
    ensures Firsts(entries[..k]) <= Firsts(entries)
    decreases |entries|
  {
    if k < |entries| {
      var init := entries[..|entries| - 1];
      FirstsPrefix(init, k);
      assert init[..k] == entries[..k];
    } else {
      assert entries[..k] == entries;
    }
  }

  // ---- batches

  function ObservationsOf(records: seq<Record>): seq<Observed> {
    if records == [] then []
    else
      var last := records[|records| - 1];
      ObservationsOf(records[..|records| - 1]) + (if last.observed.Some? then [last.observed.value] else [])
  }

  function Flattened(pages: seq<Page>): seq<Observed> {
    if pages == [] then [] else Flattened(pages[..|pages| - 1]) + ObservationsOf(pages[|pages| - 1].records)
  }

  /** The checks of RecordLocator and DiscoveryRecord, and the page and record numbering of DiscoveryBatch. */
  predicate RecordFits(r: Record, page: nat, ordinal: nat) {
    && r.page == page && r.ordinal == ordinal
    && (r.observed.Some? ==>
          var o := r.observed.value;
          && ValidObserved(o) && o.page == page && o.ordinal == ordinal
          && r.key.item == Some(o.item) && r.key.version == Some(o.versionKey))
  }

  predicate PageFits(p: Page, page: nat) {
    p.mediaType != "" && forall i | 0 <= i < |p.records| :: RecordFits(p.records[i], page, i)
  }

  /** The constructor checks of DiscoveryBatch. */
  predicate ValidBatch(b: Batch) {
    && (forall i, j | 0 <= i < j < |b.pages| :: b.pages[i].capture != b.pages[j].capture)
    && Flattened(b.pages) == b.records
    && (forall p | 0 <= p < |b.pages| :: PageFits(b.pages[p], p))
    && FromArxiv(b.records)
  }

  predicate FromArxiv(records: seq<Observed>) {
    forall i | 0 <= i < |records| :: records[i].source == "arxiv"
  }

  /** The record has the key of the entry, and the observation of the entry or none. */
  predicate RecordShows(r: Record, e: Entry) {
    && r.key.item == e.item && r.key.version == e.version && r.key.raw == e.raw
    && (r.observed.Some? ==> e.observed == Some(Bare(r.observed.value)))
  }

  /** The records are consecutive entries of the feed from a position on; payload and fingerprint are those the
      server gives for it, and a cursor is the text of the position after them. */
  predicate PageShows(server: Server, at: nat, page: Page, now: Time) {
    && page.payload == server.payload(at) && page.fingerprint == server.fingerprint(at)
    && page.mediaType == server.mediaType && page.retrievedAt == now
    && (page.nextCursor.Some? ==> page.nextCursor.value == NatText(at + |page.records|))
    && (page.records != [] ==> at + |page.records| <= |server.feed|)
    && (forall i | 0 <= i < |page.records| :: RecordShows(page.records[i], server.feed[at + i]))
  }

  function RecordCount(pages: seq<Page>): nat {
    if pages == [] then 0 else RecordCount(pages[..|pages| - 1]) + |pages[|pages| - 1].records|
  }

  /** The page starts where those before it end, and names the next one unless it is the last. */
  predicate PageFollows(server: Server, start: nat, pages: seq<Page>, p: nat, now: Time)
    requires p < |pages|
  {
    && PageShows(server, start + RecordCount(pages[..p]), pages[p], now)
    && (p < |pages| - 1 ==> pages[p].nextCursor.Some?)
  }

  predicate PagesShow(server: Server, start: nat, pages: seq<Page>, now: Time) {
    forall p | 0 <= p < |pages| :: PageFollows(server, start, pages, p, now)
  }

  // ---- the loop

  /** The records of one page; an observation whose version was seen before is dropped. */
  method ReadPage(entries: seq<Entry>, page: nat, limit: nat, before: seq<Observed>, seenBefore: set<string>, ghost prior: seq<Entry>)
    returns (records: seq<Record>, observations: seq<Observed>, seen: set<string>)
    requires |before| + |entries| <= limit && Reads(before, Firsts(prior)) && seenBefore == VersionsIn(prior)
    requires AllValid(entries)
    requires FromArxiv(before)
    ensures |records| == |entries| && forall i :: 0 <= i < |records| ==> RecordFits(records[i], page, i)
    ensures observations == before + ObservationsOf(records)
    ensures Reads(observations, Firsts(prior + entries)) && seen == VersionsIn(prior + entries)
    ensures FromArxiv(observations) && |observations| <= limit
    ensures forall i :: 0 <= i < |records| ==> RecordShows(records[i], entries[i])
  {
    hide RecordFits, ObservationsOf, ValidObserved, AllValid, RecordShows, Firsts, VersionsIn;
    records, observations, seen := [], before, seenBefore;
    NoObservations();
    assert prior + entries[..0] == prior;
    for i := 0 to |entries|
      invariant |records| == i && forall k :: 0 <= k < i ==> RecordFits(records[k], page, k)
      invariant observations == before + ObservationsOf(records) && |observations| <= |before| + i
      invariant Reads(observations, Firsts(prior + entries[..i])) && seen == VersionsIn(prior + entries[..i])
      invariant FromArxiv(observations)
      invariant forall k :: 0 <= k < i ==> RecordShows(records[k], entries[k])
    {
      var e := entries[i];
      var key := RecordKey(e.item, e.version, e.raw);
      EntryFits(entries, i, page);
      ghost var sofar, next := prior + entries[..i], prior + entries[..i + 1];
      NextEntry(prior, entries, i);
      FirstsGrow(sofar, e, next);
      VersionsGrow(sofar, e, next);
      if e.observed.None? {
        records := AddRecord(records, Record(page, i, key, None));
      } else if e.observed.value.versionKey in seen || |observations| >= limit {
        records := AddRecord(records, Record(page, i, key, None));
      } else {
        var o := e.observed.value.(page := page, ordinal := i);
        seen := seen + {o.versionKey};
        observations := observations + [o];
        records := AddRecord(records, Record(page, i, key, Some(o)));
      }
    }
    assert entries[..|entries|] == entries;
  }

  lemma NextEntry(prior: seq<Entry>, entries: seq<Entry>, i: nat)
    requires i < |entries|
    ensures var sofar, next := prior + entries[..i], prior + entries[..i + 1];
      next == sofar + [entries[i]] && next[..|next| - 1] == sofar && next[|next| - 1] == entries[i]
  {
    var sofar, next := prior + entries[..i], prior + entries[..i + 1];
    assert entries[..i + 1] == entries[..i] + [entries[i]];
    assert next == sofar + [entries[i]];
  }

  lemma FirstsGrow(entries: seq<Entry>, e: Entry, next: seq<Entry>)
    requires next == entries + [e]
    ensures Firsts(next) ==
              if e.observed.Some? && e.observed.value.versionKey !in VersionsIn(entries) then Firsts(entries) + [e]
              else Firsts(entries)
  {
    assert next[..|next| - 1] == entries;
  }

  lemma NoObservations()
    ensures ObservationsOf([]) == []
  {
  }

  lemma EntryFits(entries: seq<Entry>, i: nat, page: nat)
    requires AllValid(entries) && i < |entries|
    ensures var e := entries[i]; var key := RecordKey(e.item, e.version, e.raw);
      && RecordFits(Record(page, i, key, None), page, i)
      && (e.observed.Some? ==>
            && RecordFits(Record(page, i, key, Some(e.observed.value.(page := page, ordinal := i))), page, i)
            && Bare(e.observed.value.(page := page, ordinal := i)) == e.observed.value
            && RecordShows(Record(page, i, key, Some(e.observed.value.(page := page, ordinal := i))), e)
            && e.observed.value.source == "arxiv")
      && RecordShows(Record(page, i, key, None), e)
  {
  }

  function AddRecord(records: seq<Record>, r: Record): (s: seq<Record>)
    ensures ObservationsOf(s) == ObservationsOf(records) + (if r.observed.Some? then [r.observed.value] else [])
  {
    assert (records + [r])[..|records|] == records;
    records + [r]
  }

  lemma VersionsGrow(entries: seq<Entry>, e: Entry, next: seq<Entry>)
    requires next == entries + [e]
    ensures VersionsIn(next) == VersionsIn(entries) + if e.observed.Some? then {e.observed.value.versionKey} else {}
  {
    forall v | v in VersionsIn(entries)
      ensures v in VersionsIn(next)
    {
      var i :| 0 <= i < |entries| && entries[i].observed.Some? && entries[i].observed.value.versionKey == v;
      assert next[i] == entries[i];
    }
    if e.observed.Some? {
      assert next[|entries|] == e;
    }
  }

  /** What the server returns for start and max_results. */
  function Served(server: Server, start: nat, requested: nat): seq<Entry> {
    TakeUpTo(From(server.feed, start), requested)
  }

  lemma ServedIs(server: Server, start: nat, rest: seq<Entry>, read: nat, requested: nat)
    requires rest == From(server.feed, start) && read <= |rest| && ValidServer(server)
    ensures Served(server, start + read, requested) == rest[read..Min(|rest|, read + requested)]
    ensures AllValid(Served(server, start + read, requested))
  {
    hide ValidEntry;
    if start <= |server.feed| {
      assert From(server.feed, start + read) == rest[read..];
    }
  }

  lemma ServedFromFeed(server: Server, at: nat, requested: nat)
    ensures var entries := Served(server, at, requested);
      (entries != [] ==> at + |entries| <= |server.feed|)
      && forall i :: 0 <= i < |entries| ==> entries[i] == server.feed[at + i]
  {
  }

  lemma PositionNext(rest: seq<Entry>, limit: nat, size: nat, k: nat)
    requires |Firsts(rest[..Position(rest, limit, size, k)])| < limit
    ensures var p := Position(rest, limit, size, k);
      Position(rest, limit, size, k + 1) == Min(|rest|, p + Min(size, limit - |Firsts(rest[..p])|))
  {
  }

  /** Once there is no room or nothing left, further pages read nothing. */
  lemma {:induction false} PositionStays(rest: seq<Entry>, limit: nat, size: nat, k: nat, m: nat)
    requires k <= m
    requires var p := Position(rest, limit, size, k); |Firsts(rest[..p])| >= limit || p == |rest|
    ensures Position(rest, limit, size, m) == Position(rest, limit, size, k)
    decreases m - k
  {
    if k < m {
      PositionStays(rest, limit, size, k, m - 1);
    }
  }

  // ---- when the page cap suffices

  /** Entries without an observation, and repeated versions. */
  function Wasted(entries: seq<Entry>): int {
    |entries| - |Firsts(entries)|
  }

  lemma {:induction false} WastedGrows(entries: seq<Entry>, k: nat)
    requires k <= |entries|
    ensures 0 <= Wasted(entries[..k]) <= Wasted(entries)
    decreases |entries|
  {
    if k < |entries| {
      var init := entries[..|entries| - 1];
      WastedGrows(init, k);
      assert init[..k] == entries[..k];
    } else {
      assert entries[..k] == entries;
      if entries != [] {
        WastedGrows(entries[..|entries| - 1], |entries| - 1);
        assert entries[..|entries| - 1][..|entries| - 1] == entries[..|entries| - 1];
      }
    }
  }

  lemma More(size: nat, a: int, b: int)
    requires a <= b
    ensures size * a <= size * b
  {
  }

  /** A full page reads `size` entries; one that is not wastes an entry. */
  lemma OnePage(size: nat, k: nat, before: nat, w: int, room: nat, p: nat, v: int)
    requires k >= 1 && before + size * w >= (k - 1) * size && w <= v && p == before + Min(size, room)
    requires room < size ==> w < v
    ensures p + size * v >= k * size
  {
    assert k * size == (k - 1) * size + size;
    if size <= room {
      More(size, w, v);
    } else {
      More(size, w + 1, v);
      assert size * (w + 1) == size * w + size;
    }
  }

  /** The search has ended after k pages, or they have read k times `size` entries but for the wasted ones. */
  predicate ReadBy(rest: seq<Entry>, limit: nat, size: nat, k: nat) {
    var p := Position(rest, limit, size, k);
    |Firsts(rest[..p])| >= limit || p == |rest| || p + size * Wasted(rest[..p]) >= k * size
  }

  lemma {:induction false} PagesRead(rest: seq<Entry>, limit: nat, size: nat, k: nat)
    ensures ReadBy(rest, limit, size, k)
  {
    hide Firsts;
    if k == 0 {
      WastedGrows(rest, 0);
      assert size * Wasted(rest[..0]) >= 0 by { More(size, 0, Wasted(rest[..0])); }
    } else {
      PagesRead(rest, limit, size, k - 1);
      var before, p := Position(rest, limit, size, k - 1), Position(rest, limit, size, k);
      if |Firsts(rest[..before])| >= limit || before == |rest| {
        PositionStays(rest, limit, size, k - 1, k);
      } else if p < |rest| && |Firsts(rest[..p])| < limit {
        WastedGrows(rest[..p], before);
        assert rest[..p][..before] == rest[..before];
        OnePage(size, k, before, Wasted(rest[..before]), limit - |Firsts(rest[..before])|, p, Wasted(rest[..p]));
      }
    }
  }

  lemma TooFew(size: nat, limit: nat, found: nat, w: int, all: int)
    requires w <= all && found < limit
    ensures found + w + size * w < limit + (size + 1) * all
  {
    More(size, w, all);
    assert (size + 1) * all == size * all + all;
  }

  /** The cap never cuts a search short if one page less has room for the limit and for size + 1 entries more for
      each entry that yields nothing. */
  lemma EnoughPages(server: Server, start: nat, limit: nat, size: nat, maxPages: nat)
    requires maxPages >= 1
    requires (maxPages - 1) * size >= limit + (size + 1) * Wasted(From(server.feed, start))
    ensures !Exceeds(server, start, limit, size, maxPages)
  {
    hide Firsts, Position;
    var rest := From(server.feed, start);
    var p := Position(rest, limit, size, maxPages - 1);
    PagesRead(rest, limit, size, maxPages - 1);
    WastedGrows(rest, p);
    var found := |Firsts(rest[..p])|;
    if found < limit {
      TooFew(size, limit, found, Wasted(rest[..p]), Wasted(rest));
    }
    PositionStays(rest, limit, size, maxPages - 1, maxPages);
  }

  lemma FlattenedAdds(pages: seq<Page>, page: Page)
    ensures Flattened(pages + [page]) == Flattened(pages) + ObservationsOf(page.records)
  {
    assert (pages + [page])[..|pages|] == pages;
  }

  /** Why the loop stops: there is no room, or nothing left as far as it can tell. */
  predicate Stops(server: Server, start: nat, limit: nat, size: nat, k: nat) {
    var rest := From(server.feed, start);
    var p := Position(rest, limit, size, k);
    || |Firsts(rest[..p])| >= limit
    || (p == |rest| && (server.countsResults || (k >= 1 && Position(rest, limit, size, k - 1) == p)))
  }

  lemma StopsBeforeLimit(server: Server, start: nat, limit: nat, size: nat, k: nat, maxPages: nat)
    requires Stops(server, start, limit, size, k) && k <= maxPages && 1 <= maxPages
    ensures !Exceeds(server, start, limit, size, maxPages)
  {
    hide Firsts;
    var rest := From(server.feed, start);
    PositionStays(rest, limit, size, k, maxPages);
    if k < maxPages {
      PositionStays(rest, limit, size, k, maxPages - 1);
    }
  }

  lemma GoesOnAfterLimit(server: Server, start: nat, limit: nat, size: nat, maxPages: nat)
    requires 1 <= maxPages && GoesOn(server, start, limit, size, maxPages)
    ensures Exceeds(server, start, limit, size, maxPages)
  {
  }

  lemma FirstsOfRest(rest: seq<Entry>, read: nat, limit: nat)
    requires read <= |rest| && |Firsts(rest[..read])| <= limit
    requires |Firsts(rest[..read])| == limit || read == |rest|
    ensures TakeUpTo(Firsts(rest), limit) == Firsts(rest[..read])
  {
    hide Firsts;
    FirstsPrefix(rest, read);
    assert rest[..|rest|] == rest;
  }

  /** Where the loop stands after k pages. */
  ghost predicate Progress(
    server: Server, start: nat, limit: nat, size: nat, k: nat, at: nat, observations: seq<Observed>, seen: set<string>)
  {
    var rest := From(server.feed, start);
    var read := Position(rest, limit, size, k);
    && at == start + read
    && Reads(observations, Firsts(rest[..read])) && seen == VersionsIn(rest[..read])
    && |observations| <= limit && FromArxiv(observations)
  }

  /** More is true exactly when there is room and, as far as the server tells, something left to read. */
  ghost predicate GoesOn(server: Server, start: nat, limit: nat, size: nat, k: nat)
    requires 1 <= k
  {
    var rest := From(server.feed, start);
    var p := Position(rest, limit, size, k);
    && |Firsts(rest[..p])| < limit
    && Position(rest, limit, size, k - 1) < p && (server.countsResults ==> p < |rest|)
  }

  /** One iteration: a fetch, the records of the page, and the cursor of the next. */
  method FetchPage(
    server: Server, ghost start: nat, at: nat, limit: nat, size: nat, k: nat, observations: seq<Observed>,
    seen: set<string>, capture: Id, now: Time)
    returns (page: Page, found: seq<Observed>, versions: set<string>, next: nat)
    requires ValidServer(server) && 1 <= size && |observations| < limit
    requires Progress(server, start, limit, size, k, at, observations, seen)
    ensures Progress(server, start, limit, size, k + 1, next, found, versions)
    ensures PageFits(page, k) && page.capture == capture && found == observations + ObservationsOf(page.records)
    ensures page.nextCursor.Some? ==> |found| < limit && GoesOn(server, start, limit, size, k + 1)
    ensures page.nextCursor.None? ==> Stops(server, start, limit, size, k + 1)
    ensures PageShows(server, at, page, now) && next == at + |page.records|
  {
    hide Firsts, Position, VersionsIn, ObservationsOf, RecordFits, AllValid, From, FromArxiv, Served, RecordShows;
    ghost var rest := From(server.feed, start);
    ghost var read := Position(rest, limit, size, k);
    var requested := Min(size, limit - |observations|);
    var entries := Served(server, at, requested);
    ServedIs(server, start, rest, read, requested);
    PositionNext(rest, limit, size, k);
    var records;
    records, found, versions := ReadPage(entries, k, limit, observations, seen, rest[..read]);
    assert rest[..read] + rest[read..read + |entries|] == rest[..read + |entries|];
    next := at + |entries|;
    LeftToRead(server, start, read + |entries|);
    ServedFromFeed(server, at, requested);
    var hasMore := entries != [] && (!server.countsResults || next < |server.feed|);
    var nextCursor := if hasMore && |found| < limit then Some(NatText(next)) else None;
    page := Page(capture, records, server.payload(at), server.mediaType, now, server.fingerprint(at), nextCursor);
  }

  /** It finds the first `limit` observations of distinct versions from the cursor on, in at most `maxPages`
      fetches, or stops at the page cap; what it returns passes every check of DiscoveryBatch. */
  method Discover(server: Server, cursor: Option<int>, limit: nat, size: nat, maxPages: nat, firstCapture: Id, now: Time)
    returns (r: Outcome, fetches: nat)
    requires ValidServer(server) && 1 <= limit && 1 <= size && 1 <= maxPages
    ensures r.InvalidCursor? <==> cursor.Some? && cursor.value < 0
    ensures fetches <= maxPages
    ensures !r.InvalidCursor? ==>
      var start := if cursor.Some? then cursor.value else 0;
      && (r.PageLimit? <==> Exceeds(server, start, limit, size, maxPages))
      && (r.Discovered? ==>
            && Reads(r.batch.records, TakeUpTo(Firsts(From(server.feed, start)), limit))
            && ValidBatch(r.batch) && |r.batch.pages| == fetches
            && PagesShow(server, start, r.batch.pages, now)
            && (fetches > 0 ==> r.batch.pages[fetches - 1].nextCursor.None?)
            && forall p | 0 <= p < fetches :: r.batch.pages[p].capture == firstCapture + p)
  {
    hide PageShows, PagesShow, RecordCount, Firsts, Position, ObservationsOf, Flattened, PageFits, AllValid, Reads, From;
    hide PagesFit, FromArxiv;
    hide ValidBatch, Exceeds, Progress, Stops, GoesOn, ValidServer, TakeUpTo;
    fetches := 0;
    var start: nat := 0;
    if cursor.Some? {
      if cursor.value < 0 {
        return InvalidCursor, 0;
      }
      start := cursor.value;
    }
    var at: nat := start;
    var pages: seq<Page>, observations: seq<Observed>, seen: set<string> := [], [], {};
    var more := true;
    NothingRead(server, start, limit, size, firstCapture);
    NothingShown(server, start, now);
    while |observations| < limit && more
      invariant fetches == |pages| <= maxPages && (|observations| < limit && more ==> |pages| < maxPages)
      invariant Progress(server, start, limit, size, |pages|, at, observations, seen)
      invariant Flattened(pages) == observations && PagesFit(pages, firstCapture)
      invariant PagesShow(server, start, pages, now) && at == start + RecordCount(pages)
      invariant pages != [] ==> (more <==> pages[|pages| - 1].nextCursor.Some?)
      invariant more && pages != [] ==> |observations| < limit
      invariant !more || |observations| >= limit ==> Stops(server, start, limit, size, |pages|)
      decreases maxPages - |pages|, more
    {
      var page, found, versions, next :=
        FetchPage(server, start, at, limit, size, |pages|, observations, seen, firstCapture + |pages|, now);
      FlattenedAdds(pages, page);
      PagesFitAdds(pages, page, firstCapture);
      PagesShowAdds(server, start, pages, page, now);
      pages, observations, seen, fetches := pages + [page], found, versions, fetches + 1;
      at := next;
      more := page.nextCursor.Some?;
      if more && |pages| >= maxPages {
        GoesOnAfterLimit(server, start, limit, size, maxPages);
        return PageLimit, fetches;
      }
    }
    StopsBeforeLimit(server, start, limit, size, |pages|, maxPages);
    FoundAll(server, start, limit, size, |pages|, at, observations, seen);
    BatchIsValid(pages, observations, firstCapture);
    CapturesCount(pages, firstCapture);
    return Discovered(Batch(pages, observations)), fetches;
  }

  lemma FoundAll(
    server: Server, start: nat, limit: nat, size: nat, k: nat, at: nat, observations: seq<Observed>, seen: set<string>)
    requires Progress(server, start, limit, size, k, at, observations, seen) && Stops(server, start, limit, size, k)
    ensures Reads(observations, TakeUpTo(Firsts(From(server.feed, start)), limit)) && FromArxiv(observations)
  {
    hide Firsts, From, Position, TakeUpTo, FromArxiv;
    FirstsOfRest(From(server.feed, start), at - start, limit);
  }

  /** The pages so far, with consecutive capture identifiers. */
  predicate PagesFit(pages: seq<Page>, firstCapture: Id) {
    forall p | 0 <= p < |pages| :: PageFits(pages[p], p) && pages[p].capture == firstCapture + p
  }

  lemma PagesFitAdds(pages: seq<Page>, page: Page, firstCapture: Id)
    requires PagesFit(pages, firstCapture) && PageFits(page, |pages|) && page.capture == firstCapture + |pages|
    ensures PagesFit(pages + [page], firstCapture)
  {
  }

  lemma CapturesCount(pages: seq<Page>, firstCapture: Id)
    requires PagesFit(pages, firstCapture)
    ensures forall p | 0 <= p < |pages| :: pages[p].capture == firstCapture + p
  {
  }

  lemma NothingShown(server: Server, start: nat, now: Time)
    ensures PagesShow(server, start, [], now) && RecordCount([]) == 0
  {
  }

  lemma CountAdds(pages: seq<Page>, page: Page)
    ensures RecordCount(pages + [page]) == RecordCount(pages) + |page.records|
  {
    assert (pages + [page])[..|pages|] == pages;
  }

  lemma PagesShowAdds(server: Server, start: nat, pages: seq<Page>, page: Page, now: Time)
    requires PagesShow(server, start, pages, now) && PageShows(server, start + RecordCount(pages), page, now)
    requires pages != [] ==> pages[|pages| - 1].nextCursor.Some?
    ensures PagesShow(server, start, pages + [page], now)
    ensures RecordCount(pages + [page]) == RecordCount(pages) + |page.records|
  {
    hide PageFollows, RecordCount, PageShows;
    var more := pages + [page];
    CountAdds(pages, page);
    forall p | 0 <= p < |more|
      ensures PageFollows(server, start, more, p, now)
    {
      if p < |pages| {
        EarlierPage(server, start, pages, page, p, now);
      } else {
        LastPage(server, start, pages, page, now);
      }
    }
  }

  lemma EarlierPage(server: Server, start: nat, pages: seq<Page>, page: Page, p: nat, now: Time)
    requires p < |pages| && PageFollows(server, start, pages, p, now)
    requires pages[|pages| - 1].nextCursor.Some?
    ensures PageFollows(server, start, pages + [page], p, now)
  {
    hide PageShows, RecordCount;
    assert (pages + [page])[..p] == pages[..p];
  }

  lemma LastPage(server: Server, start: nat, pages: seq<Page>, page: Page, now: Time)
    requires PageShows(server, start + RecordCount(pages), page, now)
    ensures PageFollows(server, start, pages + [page], |pages|, now)
  {
    hide PageShows, RecordCount;
    assert (pages + [page])[..|pages|] == pages;
  }

  lemma BatchIsValid(pages: seq<Page>, observations: seq<Observed>, firstCapture: Id)
    requires PagesFit(pages, firstCapture) && Flattened(pages) == observations && FromArxiv(observations)
    ensures ValidBatch(Batch(pages, observations))
  {
  }

  lemma NothingRead(server: Server, start: nat, limit: nat, size: nat, firstCapture: Id)
    ensures Progress(server, start, limit, size, 0, start, [], {})
    ensures Flattened([]) == [] && PagesFit([], firstCapture)
  {
  }

  lemma LeftToRead(server: Server, start: nat, read: nat)
    requires read <= |From(server.feed, start)|
    ensures read < |From(server.feed, start)| <==> start + read < |server.feed|
  {
  }
}
