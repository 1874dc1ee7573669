/** What the passages of an index are, document by document, and what line normalization does. */
module IndexPassages {
  import opened Base
  import opened CatalogSchema
  import opened IndexDocuments
  import opened IndexTables
  import opened IndexReadBack

  // ---- line ends

  /** With LinesOfBreak and LinesOfReturn this determines Lines. */
  lemma LinesOfPlainText(s: string)
    requires '\r' !in s
    ensures Lines(s) == s
  {
    LinesDropsReturns(s);
  }

  /** The text around a \r\n is normalized by itself. */
  lemma {:induction false} LinesOfBreak(s: string, t: string)
    ensures Lines(s + "\r\n" + t) == Lines(s) + "\n" + Lines(t)
    decreases |s|
  {
    var all := s + "\r\n" + t;
    if s == "" {
      assert all[2..] == t;
    } else if s[0] != '\r' {
      assert all[1..] == s[1..] + "\r\n" + t;
      LinesOfBreak(s[1..], t);
    } else if |s| > 1 && s[1] == '\n' {
      assert all[2..] == s[2..] + "\r\n" + t;
      LinesOfBreak(s[2..], t);
    } else {
      assert all[1..] == s[1..] + "\r\n" + t;
      LinesOfBreak(s[1..], t);
    }
  }

  predicate BeginsBreak(c: char, s: string) {
    c == '\r' && s != "" && s[0] == '\n'
  }

  lemma LinesOne(c: char, s: string)
    requires !BeginsBreak(c, s)
    ensures Lines([c] + s) == [if c == '\r' then '\n' else c] + Lines(s)
  {
    assert ([c] + s)[1..] == s;
  }

  lemma LinesTwo(s: string)
    ensures Lines("\r\n" + s) == "\n" + Lines(s)
  {
    assert ("\r\n" + s)[2..] == s;
  }

  lemma LinesOfNothing()
    ensures Lines("") == ""
  {
  }

  lemma ReturnAfter(c: char, rest: string, t: string)
    ensures [c] + rest + "\r" + t == [c] + (rest + "\r" + t)
    ensures rest + "\r" + t != "" && (rest + "\r" + t)[0] == if rest == "" then '\r' else rest[0]
  {
  }

  lemma BreakBefore(s: string, t: string)
    requires |s| >= 2 && BeginsBreak(s[0], s[1..])
    ensures s == "\r\n" + s[1..][1..] && s + "\r" + t == "\r\n" + (s[1..][1..] + "\r" + t)
  {
  }

  /** So is the text around a \r that no \n follows. */
  lemma {:induction false} LinesOfReturn(s: string, t: string)
    requires t == "" || t[0] != '\n'
    ensures Lines(s + "\r" + t) == Lines(s) + "\n" + Lines(t)
    decreases |s|
  {
    hide Lines;
    if s == "" {
      LinesOfNothing();
      LinesOne('\r', t);
      assert s + "\r" + t == ['\r'] + t;
    } else {
      var c, rest := s[0], s[1..];
      assert s == [c] + rest;
      if BeginsBreak(c, rest) {
        LinesOfReturn(rest[1..], t);
        LinesTwo(rest[1..]);
        LinesTwo(rest[1..] + "\r" + t);
        BreakBefore(s, t);
      } else {
        LinesOfReturn(rest, t);
        LinesOne(c, rest);
        ReturnAfter(c, rest, t);
        LinesOne(c, rest + "\r" + t);
      }
    }
  }

  // ---- passages

  /** The whole normalized text, as a passage of the document. */
  ghost predicate ShowsText(
    u: Unicode, p: Passage, d: Document, chunks: string, section: string, ordinal: nat, raw: string)
  {
    var text := u.nfc(Lines(raw));
    && p.paper == d.paper && p.observation == d.observation
    && p.identity.version == d.version && p.identity.artifact == d.artifact && p.identity.chunkVersion == chunks
    && p.identity.section == Some(section) && p.identity.ordinal == ordinal
    && p.identity.text == text && p.identity.start == 0 && p.identity.end == |text|
    && p.id == PassageId(u, p.identity)
  }

  /** Some character of the normalized text is not white space. */
  ghost predicate HasText(u: Unicode, raw: string) {
    exists i :: 0 <= i < |u.nfc(Lines(raw))| && !IsSpace(u.nfc(Lines(raw))[i])
  }

  /** The title as passage 0, unless it is blank, and the abstract as passage 1, unless it is missing or blank. */
  ghost predicate PassageFor(u: Unicode, p: Passage, d: Document, chunks: string) {
    || (HasText(u, d.title) && ShowsText(u, p, d, chunks, "title", 0, d.title))
    || (d.abstractText.Some? && HasText(u, d.abstractText.value)
        && ShowsText(u, p, d, chunks, "abstract", 1, d.abstractText.value))
  }

  /** Those passages of those documents, each once, and no others. */
  ghost predicate ArePassagesOf(u: Unicode, passages: seq<Passage>, documents: seq<Document>, chunks: string) {
    && DistinctIds(passages)
    && forall p :: p in passages <==> exists d :: d in documents && PassageFor(u, p, d, chunks)
  }

  lemma SectionShowsText(
    u: Unicode, p: Passage, d: Document, chunks: string, section: string, ordinal: nat, raw: Option<string>)
    ensures p in SectionOf(u, d, chunks, section, ordinal, raw) <==>
              raw.Some? && HasText(u, raw.value) && ShowsText(u, p, d, chunks, section, ordinal, raw.value)
  {
    hide PassageId, IsSpace;
    if raw.Some? && ShowsText(u, p, d, chunks, section, ordinal, raw.value) {
      var text := Normalize(u, raw.value);
      assert p.identity == PassageIdentity(d.version, d.artifact, chunks, Some(section), ordinal, text, 0, |text|);
    }
  }

  lemma DocumentHasPassages(u: Unicode, p: Passage, d: Document, chunks: string)
    ensures p in PassagesOf(u, d, chunks) <==> PassageFor(u, p, d, chunks)
  {
    hide ShowsText, HasText, SectionOf;
    SectionShowsText(u, p, d, chunks, "title", 0, Some(d.title));
    SectionShowsText(u, p, d, chunks, "abstract", 1, d.abstractText);
  }

  lemma {:induction false} AllPassagesAre(u: Unicode, documents: seq<Document>, chunks: string, p: Passage)
    ensures p in AllPassages(u, documents, chunks) <==> exists d :: d in documents && PassageFor(u, p, d, chunks)
  {
    hide PassagesOf, PassageFor;
    if documents != [] {
      var init, d := documents[..|documents| - 1], documents[|documents| - 1];
      assert documents == init + [d];
      AllPassagesAre(u, init, chunks, p);
      DocumentHasPassages(u, p, d, chunks);
    }
  }

  /** The passages of an index are the titles and abstracts of its documents. */
  lemma PassagesAreTitlesAndAbstracts(u: Unicode, documents: seq<Document>, chunks: string)
    requires DistinctIds(AllPassages(u, documents, chunks))
    ensures ArePassagesOf(u, AllPassages(u, documents, chunks), documents, chunks)
  {
    hide AllPassages, PassageFor, DistinctIds;
    forall p
      ensures p in AllPassages(u, documents, chunks) <==> exists d :: d in documents && PassageFor(u, p, d, chunks)
    {
      AllPassagesAre(u, documents, chunks, p);
    }
  }

  // ---- a whole index

  /** The paper, then the version. */
  predicate InOrder(documents: seq<Document>) {
    forall i, j | 0 <= i < j < |documents| ::
      documents[i].paper < documents[j].paper
      || (documents[i].paper == documents[j].paper && documents[i].version < documents[j].version)
  }

  /** The full-text rows repeat the stored text, and the folded columns are folded forms of it. */
  ghost predicate TextIsIndexed(u: Unicode, t: Tables) {
    var documents, passages := ReadDocuments(t), ReadPassages(t);
    && |t.paperText| == |documents| && |t.passageText| == |passages|
    && (forall i | 0 <= i < |documents| ::
          && t.paperText[i].version == documents[i].version && t.paperText[i].title == documents[i].title
          && t.paperText[i].abstractText == documents[i].abstractText)
    && (forall i | 0 <= i < |passages| ::
          t.passageText[i].passage == passages[i].id && t.passageText[i].text == passages[i].identity.text)
    && (forall s :: s in t.authors ==> t.authors[s].folded == u.casefold(u.nfc(t.authors[s].name)))
    && (forall v :: v in t.documents && t.documents[v].language.Some? ==>
          t.documents[v].languageFolded == Some(u.casefold(u.nfc(t.documents[v].language.value))))
  }

  /** The paper, then the version, then the ordinal. */
  ghost predicate AreInOrder(passages: seq<Passage>) {
    forall i, j :: 0 <= i < j < |passages| ==> PassageBefore(passages[i], passages[j])
  }

  /** The tables hold these documents, each once and in order, the passages of them in order, and the text of both. */
  ghost predicate IsIndexOf(u: Unicode, t: Tables, documents: seq<Document>, chunks: string) {
    && (forall d :: d in ReadDocuments(t) <==> d in documents) && InOrder(ReadDocuments(t))
    && ArePassagesOf(u, ReadPassages(t), documents, chunks) && AreInOrder(ReadPassages(t))
    && TextIsIndexed(u, t)
  }

  lemma ReadReceiptMeansText(u: Unicode, t: Tables)
    requires ReadReceipt(u, t).Some?
    ensures TextIsIndexed(u, t)
    ensures ReadReceipt(u, t).value.documents == |ReadDocuments(t)|
    ensures ReadReceipt(u, t).value.passages == |ReadPassages(t)|
  {
    hide ReadDocuments, ReadPassages, ContentDigest;
    assert |t.paperText| == |PaperTexts(ReadDocuments(t))| && |t.passageText| == |PassageTexts(ReadPassages(t))|;
  }

  lemma ReadPassagesAreDistinct(t: Tables)
    ensures DistinctIds(ReadPassages(t))
  {
    hide PassageRowKey;
    PassageRowKeyInjective(t);
    OrderedRowsDistinct(t.passages.Keys, PassageRowKey(t));
  }
}
