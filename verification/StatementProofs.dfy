/** The statements of record_item satisfy every constraint once the early checks have passed. */
module StatementProofs {
  import opened Base
  import opened CatalogSchema
  import opened CatalogSpec
  import opened CatalogInvariant
  import opened RecordProofs
  import opened RecordInvariant
  import opened Statements

  function WithIdentity(c: Content, t: Target, o: Observed, now: Time): Content {
    c.(corpus := AddVersion(AddPaper(c.corpus, t, now), t, o, now))
  }

  lemma VersionRowFits(c: Content, cmd: RecordCommand, n: Id, t: Target, now: Time)
    requires Ready(c, cmd, n, t) && ValidObserved(cmd.observed) && t.newVersion
    ensures var o := cmd.observed; var d := c.(corpus := AddPaper(c.corpus, t, now));
      VersionFits(DemoteCurrent(d, t.paper, o.source), t.version, NewRow(t, o, now))
  {
  }

  lemma ObservationRowFits(c: Content, cmd: RecordCommand, n: Id, t: Target, now: Time)
    requires Ready(c, cmd, n, t) && ValidObserved(cmd.observed) && IsNewObservation(c, t, cmd.observed)
    ensures ObservationFits(WithIdentity(c, t, cmd.observed, now), t.next, RowOf(t, cmd, now))
  {
  }

  /** A new observation has no artifact of its version and digest. */
  lemma ArtifactRowFits(c: Content, cmd: RecordCommand, n: Id, t: Target, now: Time, after: Content, id: Id)
    requires Ready(c, cmd, n, t) && IsNewObservation(c, t, cmd.observed) && cmd.blob.sha == cmd.observed.sha
    requires ObservationsOk(c.corpus.versions, c.corpus.observations, c.corpus.observationIndex)
    requires ArtifactsOk(c.corpus.observations, c.corpus.artifacts, c.blobs)
    requires after.corpus.artifacts == c.corpus.artifacts && id !in c.corpus.artifacts && cmd.blob.sha in after.blobs
    requires t.next in after.corpus.observations && after.corpus.observations[t.next] == RowOf(t, cmd, now)
    ensures ArtifactFits(after, id, ArtifactOf(t, cmd, t.next, now))
  {
    forall a | a in c.corpus.artifacts
      ensures c.corpus.artifacts[a].version != t.version || c.corpus.artifacts[a].blob != cmd.blob.sha
    {
      var x := c.corpus.artifacts[a].observation;
      assert KeyOfObservation(c.corpus.observations[x]) in c.corpus.observationIndex;
    }
  }

  lemma {:induction false} BindGrows(table: map<Key, Id>, keys: seq<Key>, i: nat, target: Id)
    requires i < |keys|
    ensures var m := Bind(table, keys[..i], target);
      Bind(table, keys[..i + 1], target) == if keys[i] in m then m else m[keys[i] := target]
  {
    assert keys[..i + 1] == keys[..i] + [keys[i]];
  }

  lemma {:induction false} WitnessGrows(
    table: map<EvidenceKey, EvidenceRow>, keys: seq<Key>, i: nat, place: Place, row: EvidenceRow)
    requires i < |keys|
    ensures var m := Witness(table, keys[..i], place, row); var e := EvidenceKey(keys[i], place);
      Witness(table, keys[..i + 1], place, row) == if e in m then m else m[e := row]
  {
    assert keys[..i + 1] == keys[..i] + [keys[i]];
  }

  lemma NothingBound(table: map<Key, Id>, keys: seq<Key>, target: Id)
    ensures Bind(table, keys[..0], target) == table
  {
  }

  lemma NothingWitnessed(table: map<EvidenceKey, EvidenceRow>, keys: seq<Key>, place: Place, row: EvidenceRow)
    ensures Witness(table, keys[..0], place, row) == table
  {
  }
}
