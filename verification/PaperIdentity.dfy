/** Which records share a paper: exactly those that a chain of common identifiers connects. */
module PaperIdentity {
  import opened Base
  import opened CatalogSchema
  import opened CatalogSpec
  import opened CatalogInvariant
  import opened RecordProofs
  import opened RecordInvariant
  import opened CatalogGrowth
  import opened Idempotence

  /** A record showed an identifier. */
  datatype Sighting = Sighting(place: Place, key: Key, scope: Scope)

  /** The identifiers of an observation: the paper and the version that its provider names, and those it lists. */
  ghost predicate Shows(o: Observed, key: Key, scope: Scope) {
    || (scope == PaperScope && key == Key(o.source, o.item))
    || (scope == VersionScope && key == Key(o.source, o.versionKey))
    || ObservedIdentifier(key, scope) in o.identifiers
  }

  // ---- chains

  ghost predicate Shares(seen: iset<Sighting>, p: Place, q: Place) {
    exists key, scope :: Sighting(p, key, scope) in seen && Sighting(q, key, scope) in seen
  }

  ghost predicate SharesVersion(seen: iset<Sighting>, p: Place, q: Place) {
    exists key :: Sighting(p, key, VersionScope) in seen && Sighting(q, key, VersionScope) in seen
  }

  ghost predicate Chain(seen: iset<Sighting>, s: seq<Place>) {
    forall i {:trigger s[i]} | 0 < i < |s| :: Shares(seen, s[i - 1], s[i])
  }

  ghost predicate Joins(seen: iset<Sighting>, s: seq<Place>, p: Place, q: Place) {
    s != [] && s[0] == p && s[|s| - 1] == q && Chain(seen, s)
  }

  /** Neighbours along some sequence of records share an identifier of one scope. */
  ghost predicate Connected(seen: iset<Sighting>, p: Place, q: Place) {
    exists s :: Joins(seen, s, p, q)
  }

  lemma ConnectedGrows(seen: iset<Sighting>, more: iset<Sighting>, p: Place, q: Place)
    requires seen <= more && Connected(seen, p, q)
    ensures Connected(more, p, q)
  {
    var s :| Joins(seen, s, p, q);
    forall i | 0 < i < |s|
      ensures Shares(more, s[i - 1], s[i])
    {
      assert Shares(seen, s[i - 1], s[i]);
    }
    assert Joins(more, s, p, q);
  }

  /** A record next to one end of a chain is connected with the other, both ways round. */
  lemma ConnectedThrough(seen: iset<Sighting>, z: Place, r: Place, q: Place)
    requires Shares(seen, z, r) && Connected(seen, r, q) && Connected(seen, q, r)
    ensures Connected(seen, z, q) && Connected(seen, q, z)
  {
    hide Shares;
    var s :| Joins(seen, s, r, q);
    var out := [z] + s;
    forall i | 0 < i < |out|
      ensures Shares(seen, out[i - 1], out[i])
    {
      if i > 1 {
        assert out[i - 1] == s[i - 2] && out[i] == s[i - 1];
      }
    }
    assert Joins(seen, out, z, q);
    var b :| Joins(seen, b, q, r);
    var back := b + [z];
    SharesIsSymmetric(seen, z, r);
    forall i | 0 < i < |back|
      ensures Shares(seen, back[i - 1], back[i])
    {
      if i < |b| {
        assert back[i - 1] == b[i - 1] && back[i] == b[i];
      }
    }
    assert Joins(seen, back, q, z);
  }

  lemma SharesIsSymmetric(seen: iset<Sighting>, p: Place, q: Place)
    requires Shares(seen, p, q)
    ensures Shares(seen, q, p)
  {
  }

  lemma ConnectedToItself(seen: iset<Sighting>, p: Place)
    ensures Connected(seen, p, p)
  {
    assert Joins(seen, [p], p, p);
  }

  // ---- the stored evidence, for both scopes

  function IdsOf(x: Corpus, scope: Scope): map<Key, Id> {
    if scope == PaperScope then x.paperIds else x.versionIds
  }

  function EvidenceOf(x: Corpus, scope: Scope): map<EvidenceKey, EvidenceRow> {
    if scope == PaperScope then x.paperEvidence else x.versionEvidence
  }

  function ScopeKeys(o: Observed, scope: Scope): seq<Key> {
    if scope == PaperScope then PaperKeys(o) else VersionKeys(o)
  }

  ghost predicate Evident(x: Corpus, s: Sighting) {
    EvidenceKey(s.key, s.place) in EvidenceOf(x, s.scope)
  }

  ghost function Seen(x: Corpus): iset<Sighting> {
    iset s | Evident(x, s)
  }

  ghost predicate Recorded(x: Corpus, links: map<Place, Id>, p: Place) {
    p in links && links[p] in x.observations && x.observations[links[p]].version in x.versions
  }

  function VersionAt(x: Corpus, links: map<Place, Id>, p: Place): Id
    requires Recorded(x, links, p)
  {
    x.observations[links[p]].version
  }

  function PaperAt(x: Corpus, links: map<Place, Id>, p: Place): Id
    requires Recorded(x, links, p)
  {
    x.versions[VersionAt(x, links, p)].paper
  }

  function TargetAt(x: Corpus, links: map<Place, Id>, p: Place, scope: Scope): Id
    requires Recorded(x, links, p)
  {
    if scope == PaperScope then PaperAt(x, links, p) else VersionAt(x, links, p)
  }

  ghost predicate AllRecorded(x: Corpus, links: map<Place, Id>) {
    forall p :: p in links ==> Recorded(x, links, p)
  }

  /** An identifier that a record showed is bound to the paper or version of the record. */
  ghost predicate EvidenceAgrees(x: Corpus, links: map<Place, Id>) {
    forall s :: Evident(x, s) ==>
      && Recorded(x, links, s.place) && s.key in IdsOf(x, s.scope)
      && IdsOf(x, s.scope)[s.key] == TargetAt(x, links, s.place, s.scope)
  }

  ghost predicate IsShown(x: Corpus, key: Key, scope: Scope) {
    exists p :: Evident(x, Sighting(p, key, scope))
  }

  /** Every bound identifier was shown by some record. */
  ghost predicate BindingsAreShown(x: Corpus) {
    forall key, scope {:trigger IsShown(x, key, scope)} :: key in IdsOf(x, scope) ==> IsShown(x, key, scope)
  }

  ghost predicate ShowsOwnKey(x: Corpus, links: map<Place, Id>, p: Place)
    requires Recorded(x, links, p)
  {
    Evident(x, Sighting(p, KeyOf(x.versions[VersionAt(x, links, p)]), VersionScope))
  }

  /** Every record showed the own identifier of its version. */
  ghost predicate OwnKeysAreShown(x: Corpus, links: map<Place, Id>)
    requires AllRecorded(x, links)
  {
    forall p {:trigger ShowsOwnKey(x, links, p)} :: p in links ==> ShowsOwnKey(x, links, p)
  }

  /** Records of one paper are connected. */
  ghost predicate PapersAreConnected(x: Corpus, links: map<Place, Id>)
    requires AllRecorded(x, links)
  {
    forall p, q {:trigger Connected(Seen(x), p, q)} :: p in links && q in links ==>
      PaperAt(x, links, p) == PaperAt(x, links, q) ==> Connected(Seen(x), p, q)
  }

  ghost predicate Traced(x: Corpus, links: map<Place, Id>) {
    && AllRecorded(x, links) && EvidenceAgrees(x, links) && BindingsAreShown(x)
    && OwnKeysAreShown(x, links) && PapersAreConnected(x, links)
  }

  lemma InitialTraced()
    ensures Traced(EMPTY_CORPUS, map[])
  {
  }

  // ---- one record

  function IdOf(t: Target, scope: Scope): Id {
    if scope == PaperScope then t.paper else t.version
  }

  /** The identifier tables and their evidence, in both scopes. */
  ghost predicate Bindings(x: Corpus, y: Corpus, o: Observed, place: Place, t: Target) {
    && (forall scope {:trigger IdsOf(y, scope)} ::
          && Extends(IdsOf(x, scope), IdsOf(y, scope))
          && forall key :: key in IdsOf(y, scope) ==> key in IdsOf(x, scope) || Shows(o, key, scope))
    && (forall scope, key :: Shows(o, key, scope) ==> key in IdsOf(y, scope) && IdsOf(y, scope)[key] == IdOf(t, scope))
    && (forall s :: Evident(y, s) <==> Evident(x, s) || (s.place == place && Shows(o, s.key, s.scope)))
  }

  /** What recording an observation at a place does to identities, links and evidence. */
  ghost predicate Extended(
    x: Corpus, links: map<Place, Id>, y: Corpus, links1: map<Place, Id>, o: Observed, place: Place, t: Target, row: Id)
  {
    && SameLines(x.versions, y.versions) && Extends(x.observations, y.observations)
    && links1 == links[place := row] && (place in links ==> links[place] == row)
    && row in y.observations && y.observations[row].version == t.version
    && t.version in y.versions && y.versions[t.version].paper == t.paper
    && KeyOf(y.versions[t.version]) == Key(o.source, o.versionKey)
    && Bindings(x, y, o, place, t)
  }

  lemma PlacesStay(
    x: Corpus, links: map<Place, Id>, y: Corpus, links1: map<Place, Id>, o: Observed, place: Place, t: Target, row: Id,
    p: Place)
    requires Extended(x, links, y, links1, o, place, t, row)
    ensures Recorded(x, links, p) ==>
      && Recorded(y, links1, p) && VersionAt(y, links1, p) == VersionAt(x, links, p)
      && PaperAt(y, links1, p) == PaperAt(x, links, p)
      && KeyOf(y.versions[VersionAt(y, links1, p)]) == KeyOf(x.versions[VersionAt(x, links, p)])
    ensures Recorded(y, links1, place) && PaperAt(y, links1, place) == t.paper && VersionAt(y, links1, place) == t.version
  {
  }

  lemma EvidenceStaysAgreed(
    x: Corpus, links: map<Place, Id>, y: Corpus, links1: map<Place, Id>, o: Observed, place: Place, t: Target, row: Id)
    requires Extended(x, links, y, links1, o, place, t, row)
    requires AllRecorded(x, links) && EvidenceAgrees(x, links) && BindingsAreShown(x) && OwnKeysAreShown(x, links)
    ensures AllRecorded(y, links1) && EvidenceAgrees(y, links1) && BindingsAreShown(y) && OwnKeysAreShown(y, links1)
  {
    hide Recorded, PaperAt, VersionAt, Evident, IdsOf;
    forall p | p in links1
      ensures Recorded(y, links1, p)
    {
      PlacesStay(x, links, y, links1, o, place, t, row, p);
    }
    forall s | Evident(y, s)
      ensures Recorded(y, links1, s.place) && s.key in IdsOf(y, s.scope)
      ensures IdsOf(y, s.scope)[s.key] == TargetAt(y, links1, s.place, s.scope)
    {
      PlacesStay(x, links, y, links1, o, place, t, row, s.place);
    }
    forall key, scope | key in IdsOf(y, scope)
      ensures IsShown(y, key, scope)
    {
      BindingStaysShown(x, links, y, links1, o, place, t, row, key, scope);
    }
    forall p | p in links1
      ensures ShowsOwnKey(y, links1, p)
    {
      PlacesStay(x, links, y, links1, o, place, t, row, p);
      assert p in links ==> ShowsOwnKey(x, links, p);
    }
  }

  lemma BindingStaysShown(
    x: Corpus, links: map<Place, Id>, y: Corpus, links1: map<Place, Id>, o: Observed, place: Place, t: Target, row: Id,
    key: Key, scope: Scope)
    requires Extended(x, links, y, links1, o, place, t, row)
    requires BindingsAreShown(x) && key in IdsOf(y, scope)
    ensures IsShown(y, key, scope)
  {
    hide Evident, IdsOf, Shows;
    if key in IdsOf(x, scope) {
      assert IsShown(x, key, scope);
      var p :| Evident(x, Sighting(p, key, scope));
      assert Evident(y, Sighting(p, key, scope));
    } else {
      assert Evident(y, Sighting(place, key, scope));
    }
  }

  /** A target that is not a new paper was reached through an identifier that an earlier record had shown. */
  lemma TargetHasNeighbour(
    x: Corpus, links: map<Place, Id>, y: Corpus, links1: map<Place, Id>, o: Observed, place: Place, t: Target, row: Id,
    key: Key, scope: Scope) returns (r: Place)
    requires Extended(x, links, y, links1, o, place, t, row)
    requires EvidenceAgrees(x, links) && BindingsAreShown(x)
    requires Shows(o, key, scope) && key in IdsOf(x, scope)
    ensures r in links && Shares(Seen(y), place, r)
    ensures Recorded(x, links, r) && PaperAt(x, links, r) == t.paper
  {
    hide Shows, Evident, IdsOf;
    assert IsShown(x, key, scope);
    r :| Evident(x, Sighting(r, key, scope));
    assert Sighting(r, key, scope) in Seen(y) && Sighting(place, key, scope) in Seen(y);
    PlacesStay(x, links, y, links1, o, place, t, row, r);
  }

  lemma PapersStayConnected(
    x: Corpus, links: map<Place, Id>, y: Corpus, links1: map<Place, Id>, o: Observed, place: Place, t: Target, row: Id)
    requires Extended(x, links, y, links1, o, place, t, row) && Traced(x, links)
    requires t.newPaper ==> forall v :: v in x.versions ==> x.versions[v].paper != t.paper
    requires !t.newPaper ==> exists key, scope :: Shows(o, key, scope) && key in IdsOf(x, scope)
    ensures AllRecorded(y, links1) && PapersAreConnected(y, links1)
  {
    hide Connected, Shows, Evident, IdsOf, Shares;
    EvidenceStaysAgreed(x, links, y, links1, o, place, t, row);
    assert Seen(x) <= Seen(y);
    forall p, q | p in links && q in links && PaperAt(x, links, p) == PaperAt(x, links, q)
      ensures Connected(Seen(y), p, q)
    {
      ConnectedGrows(Seen(x), Seen(y), p, q);
    }
    forall q | q in links && place !in links && PaperAt(x, links, q) == t.paper
      ensures Connected(Seen(y), place, q) && Connected(Seen(y), q, place)
    {
      assert !t.newPaper;
      var key, scope :| Shows(o, key, scope) && key in IdsOf(x, scope);
      var r := TargetHasNeighbour(x, links, y, links1, o, place, t, row, key, scope);
      ConnectedThrough(Seen(y), place, r, q);
    }
    ConnectedToItself(Seen(y), place);
    forall p, q | p in links1 && q in links1 && PaperAt(y, links1, p) == PaperAt(y, links1, q)
      ensures Connected(Seen(y), p, q)
    {
      PlacesStay(x, links, y, links1, o, place, t, row, p);
      PlacesStay(x, links, y, links1, o, place, t, row, q);
    }
  }

  // ---- record_item

  lemma {:induction false} ScopedKeysAreListed(ids: seq<ObservedIdentifier>, scope: Scope, key: Key)
    ensures key in ScopedKeys(ids, scope) <==> ObservedIdentifier(key, scope) in ids
  {
    if ids != [] {
      ScopedKeysAreListed(ids[1..], scope, key);
      assert ids == [ids[0]] + ids[1..];
    }
  }

  /** The keys that record_item inserts are those that the observation shows. */
  lemma KeysAreShown(o: Observed, scope: Scope, key: Key)
    ensures key in ScopeKeys(o, scope) <==> Shows(o, key, scope)
  {
    ScopedKeysAreListed(o.identifiers, scope, key);
  }

  lemma BindAddsKeys(table: map<Key, Id>, keys: seq<Key>, target: Id)
    requires BoundTo(table, keys, target)
    ensures var more := Bind(table, keys, target);
      && Extends(table, more)
      && (forall key :: key in more <==> key in table || key in keys)
      && (forall key :: key in keys ==> more[key] == target)
  {
  }

  lemma WitnessAddsKeys(
    table: map<EvidenceKey, EvidenceRow>, keys: seq<Key>, place: Place, row: EvidenceRow, s: Sighting)
    ensures EvidenceKey(s.key, s.place) in Witness(table, keys, place, row)
       <==> EvidenceKey(s.key, s.place) in table || (s.place == place && s.key in keys)
  {
  }

  lemma BindingExtends(c: Content, t: Target, o: Observed, place: Place, now: Time, after: Content, scope: Scope)
    requires BindingShape(c, t, o, place, now, after)
    requires BoundTo(c.corpus.paperIds, PaperKeys(o), t.paper)
    requires BoundTo(c.corpus.versionIds, VersionKeys(o), t.version)
    ensures Extends(IdsOf(c.corpus, scope), IdsOf(after.corpus, scope))
    ensures forall key :: key in IdsOf(after.corpus, scope) <==> key in IdsOf(c.corpus, scope) || Shows(o, key, scope)
    ensures forall key :: Shows(o, key, scope) ==>
              key in IdsOf(after.corpus, scope) && IdsOf(after.corpus, scope)[key] == IdOf(t, scope)
    ensures forall p, key :: Evident(after.corpus, Sighting(p, key, scope)) <==>
              Evident(c.corpus, Sighting(p, key, scope)) || (p == place && Shows(o, key, scope))
  {
    hide Bind, Witness, BoundTo, Shows;
    BindAddsKeys(IdsOf(c.corpus, scope), ScopeKeys(o, scope), IdOf(t, scope));
    forall key
      ensures key in ScopeKeys(o, scope) <==> Shows(o, key, scope)
    {
      KeysAreShown(o, scope, key);
    }
    var row := EvidenceRow(o.source, now);
    forall p, key
      ensures Evident(after.corpus, Sighting(p, key, scope)) <==>
                Evident(c.corpus, Sighting(p, key, scope)) || (p == place && Shows(o, key, scope))
    {
      WitnessAddsKeys(EvidenceOf(c.corpus, scope), ScopeKeys(o, scope), place, row, Sighting(p, key, scope));
    }
  }

  lemma BindingsExtend(c: Content, t: Target, o: Observed, place: Place, now: Time, after: Content)
    requires BindingShape(c, t, o, place, now, after)
    requires BoundTo(c.corpus.paperIds, PaperKeys(o), t.paper)
    requires BoundTo(c.corpus.versionIds, VersionKeys(o), t.version)
    ensures Bindings(c.corpus, after.corpus, o, place, t)
  {
    hide BindingShape, BoundTo, Extends, IdsOf, Evident, Shows;
    forall scope
      ensures Extends(IdsOf(c.corpus, scope), IdsOf(after.corpus, scope))
      ensures forall key :: key in IdsOf(after.corpus, scope) ==> key in IdsOf(c.corpus, scope) || Shows(o, key, scope)
      ensures forall key :: Shows(o, key, scope) ==>
                key in IdsOf(after.corpus, scope) && IdsOf(after.corpus, scope)[key] == IdOf(t, scope)
    {
      BindingExtends(c, t, o, place, now, after, scope);
    }
    forall s
      ensures Evident(after.corpus, s) <==> Evident(c.corpus, s) || (s.place == place && Shows(o, s.key, s.scope))
    {
      BindingExtends(c, t, o, place, now, after, s.scope);
      assert s == Sighting(s.place, s.key, s.scope);
    }
  }

  lemma AbsorbExtends(c: Content, cmd: RecordCommand, n: Id, t: Target, now: Time)
    requires Inv(c, n) && Ready(c, cmd, n, t)
    requires BoundTo(c.corpus.paperIds, PaperKeys(cmd.observed), t.paper)
    requires BoundTo(c.corpus.versionIds, VersionKeys(cmd.observed), t.version)
    ensures var r := Absorb(c, t, cmd, now);
      r.Done? ==>
        && r.value.refs.Some?
        && Extended(c.corpus, c.ingest.links, r.content.corpus, r.content.ingest.links, cmd.observed, cmd.key.place, t,
             r.value.refs.value.observation)
  {
    hide BlobsOk, IngestOk, FreshFrom, Conserved, ShelfOk, CorpusExtends, ProvenanceExtends, RunsExtend;
    hide VersionsOk, CurrentOk, EveryVersionObserved, ChildrenOk, ArtifactsOk, IdentifiersOk, Absorb;
    hide BindingShape, ChildrenShape, ObservationsOk, Extends, SameLines, BoundTo, Bindings;
    AbsorbHasShape(c, t, cmd, now);
    var r := Absorb(c, t, cmd, now);
    if r.Done? {
      var x := r.value.refs.value.observation;
      KeepsIdentity(c, cmd, n, t, now, r.content);
      ObservedRow(c, cmd, n, t, now, r.content, x);
      ObservationExtends(c, cmd, n, t, now, r.content, x);
      BindingsExtend(c, t, cmd.observed, cmd.key.place, now, r.content);
    }
  }

  /** A version is new exactly when no row has its source and key, and a paper is new exactly when besides that no
      paper identifier of the observation is bound. */
  lemma ResolvedPaper(x: Corpus, o: Observed, n: Id)
    requires VersionsResolve(x) && ResolveTarget(x, o, n).Some?
    ensures var t := ResolveTarget(x, o, n).value;
      && (t.newVersion <==> Key(o.source, o.versionKey) !in x.versionIndex)
      && (t.newPaper <==> t.newVersion && forall key :: Shows(o, key, PaperScope) ==> key !in x.paperIds)
  {
    hide Shows;
    var keys := PaperKeys(o);
    forall key
      ensures key in keys <==> Shows(o, key, PaperScope)
    {
      KeysAreShown(o, PaperScope, key);
    }
    if i :| 0 <= i < |keys| && keys[i] in x.paperIds {
      assert x.paperIds[keys[i]] in Targets(x.paperIds, keys);
      assert Shows(o, keys[i], PaperScope);
    }
  }

  lemma TargetsPaper(c: Content, cmd: RecordCommand, n: Id, t: Target)
    requires Inv(c, n) && Ready(c, cmd, n, t)
    ensures t.newPaper ==> forall v :: v in c.corpus.versions ==> c.corpus.versions[v].paper != t.paper
    ensures !t.newVersion ==>
              var key := Key(cmd.observed.source, cmd.observed.versionKey);
              Shows(cmd.observed, key, VersionScope) && key in IdsOf(c.corpus, VersionScope)
  {
    hide IngestOk, BlobsOk, ShelfOk, FreshFrom, Conserved, CurrentOk, ObservationsOk, EveryVersionObserved, ChildrenOk;
    hide ArtifactsOk, IsSelected;
  }

  lemma RecordKeepsTraced(c: Content, cmd: RecordCommand, n: Id, now: Time)
    requires Inv(c, n) && Resolves(c) && IdentifiersResolve(c.corpus) && cmd.key !in c.ingest.items
    requires Traced(c.corpus, c.ingest.links)
    ensures var r := RecordItem(c, cmd, n, now);
      r.Done? ==>
        && Traced(r.content.corpus, r.content.ingest.links)
        && forall s :: Evident(r.content.corpus, s) <==>
             Evident(c.corpus, s) || (s.place == cmd.key.place && Shows(cmd.observed, s.key, s.scope))
  {
    hide Inv, Absorb, ResolveTarget, Ready, EvidenceAgrees, BindingsAreShown, OwnKeysAreShown, PapersAreConnected;
    hide AllRecorded, SameLines, Extends, IdsOf, Shows, Evident, BoundTo, Resolves;
    var r := RecordItem(c, cmd, n, now);
    if r.Done? {
      ResolvesUnfolds(c);
      EarlyChecks(c, cmd, n);
      var t := ResolveTarget(c.corpus, cmd.observed, n).value;
      ResolvedPaper(c.corpus, cmd.observed, n);
      TargetsPaper(c, cmd, n, t);
      AbsorbExtends(c, cmd, n, t, now);
      var y, x := r.content, r.value.refs.value.observation;
      PaperIdsOf(c.corpus);
      EvidenceStaysAgreed(c.corpus, c.ingest.links, y.corpus, y.ingest.links, cmd.observed, cmd.key.place, t, x);
      PapersStayConnected(c.corpus, c.ingest.links, y.corpus, y.ingest.links, cmd.observed, cmd.key.place, t, x);
    }
  }

  lemma PaperIdsOf(x: Corpus)
    ensures IdsOf(x, PaperScope) == x.paperIds
  {
  }
}
