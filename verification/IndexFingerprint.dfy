/** The content fingerprint of an index determines its documents and passages. */
module IndexFingerprint {
  import opened Base
  import opened CatalogSchema
  import opened IndexDocuments
  import opened CanonicalJson
  import opened Digests
  import opened IndexTables

  function MembershipsJson(values: seq<Membership>): seq<Json> {
    seq(|values|, i requires 0 <= i < |values| => MembershipJson(values[i]))
  }

  function IdentifiersJson(values: seq<SearchIdentifier>): seq<Json> {
    seq(|values|, i requires 0 <= i < |values| => IdentifierJson(values[i]))
  }

  function DocumentsJson(values: seq<Document>): seq<Json> {
    seq(|values|, i requires 0 <= i < |values| => DocumentJson(values[i]))
  }

  function PassagesJson(values: seq<Passage>): seq<Json> {
    seq(|values|, i requires 0 <= i < |values| => PassageRowJson(values[i]))
  }

  lemma StringsJsonInjective(a: seq<string>, b: seq<string>)
    requires StringsJson(a) == StringsJson(b)
    ensures a == b
  {
    var s, t := StringsJson(a).items, StringsJson(b).items;
    forall i | 0 <= i < |a|
      ensures a[i] == b[i]
    {
      assert s[i] == t[i];
    }
  }

  lemma MembershipsJsonInjective(a: seq<Membership>, b: seq<Membership>)
    requires MembershipsJson(a) == MembershipsJson(b)
    ensures a == b
  {
    var s, t := MembershipsJson(a), MembershipsJson(b);
    forall i | 0 <= i < |a|
      ensures a[i] == b[i]
    {
      assert s[i].fields[0] == t[i].fields[0] && s[i].fields[1] == t[i].fields[1];
      NumberJsonInjective(a[i].collection, b[i].collection);
    }
  }

  lemma IdentifiersJsonInjective(a: seq<SearchIdentifier>, b: seq<SearchIdentifier>)
    requires IdentifiersJson(a) == IdentifiersJson(b)
    ensures a == b
  {
    var s, t := IdentifiersJson(a), IdentifiersJson(b);
    forall i | 0 <= i < |a|
      ensures a[i] == b[i]
    {
      assert s[i].fields[0] == t[i].fields[0] && s[i].fields[1] == t[i].fields[1] && s[i].fields[2] == t[i].fields[2];
      assert |"paper"| != |"version"|;
    }
  }

  lemma DocumentJsonInjective(d: Document, e: Document)
    requires DocumentJson(d) == DocumentJson(e)
    ensures d == e
  {
    hide StringsJson, NumberJson, TimeJson, DigestJson, MembershipJson, IdentifierJson;
    var s, t := DocumentJson(d).fields, DocumentJson(e).fields;
    assert s[0] == t[0] && s[1] == t[1] && s[2] == t[2] && s[3] == t[3] && s[4] == t[4] && s[5] == t[5] && s[6] == t[6];
    assert s[7] == t[7] && s[8] == t[8] && s[9] == t[9] && s[10] == t[10] && s[11] == t[11] && s[12] == t[12];
    DigestJsonInjective(d.artifact, e.artifact);
    StringsJsonInjective(d.authors, e.authors);
    StringsJsonInjective(d.categories, e.categories);
    assert s[4].value.items == MembershipsJson(d.collections) && t[4].value.items == MembershipsJson(e.collections);
    MembershipsJsonInjective(d.collections, e.collections);
    assert s[5].value.items == IdentifiersJson(d.identifiers) && t[5].value.items == IdentifiersJson(e.identifiers);
    IdentifiersJsonInjective(d.identifiers, e.identifiers);
    NumberJsonInjective(d.paper, e.paper);
    NumberJsonInjective(d.version, e.version);
    NumberJsonInjective(d.observation, e.observation);
    TimeJsonInjective(d.submittedAt, e.submittedAt);
  }

  lemma PassageRowJsonInjective(p: Passage, q: Passage)
    requires PassageRowJson(p) == PassageRowJson(q)
    ensures p == q
  {
    hide NumberJson, DigestJson;
    var s, t := PassageRowJson(p).fields, PassageRowJson(q).fields;
    assert s[0] == t[0] && s[1] == t[1] && s[2] == t[2] && s[3] == t[3] && s[4] == t[4] && s[5] == t[5];
    assert s[6] == t[6] && s[7] == t[7] && s[8] == t[8] && s[9] == t[9] && s[10] == t[10];
    DigestJsonInjective(p.identity.artifact, q.identity.artifact);
    DigestJsonInjective(p.id, q.id);
    NumberJsonInjective(p.paper, q.paper);
    NumberJsonInjective(p.identity.version, q.identity.version);
    NumberJsonInjective(p.observation, q.observation);
  }

  /** Two indexes with equal fingerprints have equal documents and equal passages. */
  lemma FingerprintDeterminesContent(
    ds: seq<Document>, ps: seq<Passage>, es: seq<Document>, qs: seq<Passage>)
    requires ContentDigest(ds, ps) == ContentDigest(es, qs)
    ensures ds == es && ps == qs
  {
    hide DocumentJson, PassageRowJson;
    var a := Obj([Field("documents", List(DocumentsJson(ds))), Field("passages", List(PassagesJson(ps)))]);
    var b := Obj([Field("documents", List(DocumentsJson(es))), Field("passages", List(PassagesJson(qs)))]);
    DigestShape(ds, ps);
    DigestShape(es, qs);
    DigestInjective(a, b);
    assert a.fields[0] == b.fields[0] && a.fields[1] == b.fields[1];
    assert DocumentsJson(ds) == DocumentsJson(es) && PassagesJson(ps) == PassagesJson(qs);
    assert |ds| == |DocumentsJson(ds)| && |ps| == |PassagesJson(ps)|;
    forall i | 0 <= i < |ds|
      ensures ds[i] == es[i]
    {
      assert DocumentsJson(ds)[i] == DocumentsJson(es)[i];
      DocumentJsonInjective(ds[i], es[i]);
    }
    forall i | 0 <= i < |ps|
      ensures ps[i] == qs[i]
    {
      assert PassagesJson(ps)[i] == PassagesJson(qs)[i];
      PassageRowJsonInjective(ps[i], qs[i]);
    }
  }

  lemma DigestShape(ds: seq<Document>, ps: seq<Passage>)
    ensures ContentDigest(ds, ps) ==
            DigestOf(Obj([Field("documents", List(DocumentsJson(ds))), Field("passages", List(PassagesJson(ps)))]))
  {
    hide DocumentJson, PassageRowJson, DigestOf;
    assert seq(|ds|, i requires 0 <= i < |ds| => DocumentJson(ds[i])) == DocumentsJson(ds);
    assert seq(|ps|, i requires 0 <= i < |ps| => PassageRowJson(ps[i])) == PassagesJson(ps);
  }
}
