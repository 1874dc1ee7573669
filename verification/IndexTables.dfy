/** The database file of a search index: documents and passages split into positional tables, and read back. */
module IndexTables {
  import opened Base
  import opened CatalogSchema
  import opened Ordering
  import opened IndexDocuments
  import opened IndexContent
  import opened CanonicalJson
  import opened Digests

  // ---- text

  /** The Unicode tables of the platform: normalization form C and case folding. */
  datatype Unicode = Unicode(nfc: string -> string, casefold: string -> string)

  /** Line ends as the builder normalizes them: \r\n and \r become \n. */
  function Lines(s: string): string {
    if s == "" then ""
    else if s[0] != '\r' then [s[0]] + Lines(s[1..])
    else "\n" + Lines(if |s| > 1 && s[1] == '\n' then s[2..] else s[1..])
  }

  function Normalize(u: Unicode, s: string): string {
    u.nfc(Lines(s))
  }

  /** _fold of the builder. */
  function WrittenFold(u: Unicode, s: string): string {
    u.casefold(Normalize(u, s))
  }

  /** _fold of the schema, which leaves line ends alone. */
  function CheckedFold(u: Unicode, s: string): string {
    u.casefold(u.nfc(s))
  }

  // ---- passages

  datatype PassageIdentity = PassageIdentity(
    version: Id, artifact: Sha256, chunkVersion: string, section: Option<string>, ordinal: nat, text: string,
    start: nat, end: nat)

  datatype Passage = Passage(id: Sha256, paper: Id, observation: Id, identity: PassageIdentity)

  function PassageJson(u: Unicode, p: PassageIdentity): Json {
    Obj([
      Field("artifact_sha256", DigestJson(p.artifact)),
      Field("chunk_schema_version", Str(p.chunkVersion)),
      Field("end_offset", Int(p.end)),
      Field("normalized_text", Str(Normalize(u, p.text))),
      Field("ordinal", Int(p.ordinal)),
      Field("paper_version_id", NumberJson(p.version)),
      Field("section", TextJson(p.section)),
      Field("start_offset", Int(p.start))])
  }

  function PassageId(u: Unicode, p: PassageIdentity): Sha256 {
    DigestOf(PassageJson(u, p))
  }

  /** The constructor check that passage text is already normalized. */
  predicate IsNormalized(u: Unicode, p: PassageIdentity) {
    Normalize(u, p.text) == p.text
  }

  /** All eight components of a passage identity are determined by its identifier. */
  lemma PassageIdInjective(u: Unicode, a: PassageIdentity, b: PassageIdentity)
    requires IsNormalized(u, a) && IsNormalized(u, b) && PassageId(u, a) == PassageId(u, b)
    ensures a == b
  {
    DigestInjective(PassageJson(u, a), PassageJson(u, b));
    var s, t := PassageJson(u, a).fields, PassageJson(u, b).fields;
    assert s[0] == t[0] && s[1] == t[1] && s[2] == t[2] && s[3] == t[3];
    assert s[4] == t[4] && s[5] == t[5] && s[6] == t[6] && s[7] == t[7];
    DigestJsonInjective(a.artifact, b.artifact);
    NumberJsonInjective(a.version, b.version);
  }

  function SectionOf(u: Unicode, d: Document, chunks: string, section: string, ordinal: nat, raw: Option<string>)
    : seq<Passage>
  {
    if raw.None? || Blank(Normalize(u, raw.value)) then []
    else
      var text := Normalize(u, raw.value);
      var identity := PassageIdentity(d.version, d.artifact, chunks, Some(section), ordinal, text, 0, |text|);
      [Passage(PassageId(u, identity), d.paper, d.observation, identity)]
  }

  /** passages_for_document. */
  function PassagesOf(u: Unicode, d: Document, chunks: string): seq<Passage> {
    SectionOf(u, d, chunks, "title", 0, Some(d.title)) + SectionOf(u, d, chunks, "abstract", 1, d.abstractText)
  }

  function AllPassages(u: Unicode, documents: seq<Document>, chunks: string): seq<Passage> {
    if documents == [] then []
    else AllPassages(u, documents[..|documents| - 1], chunks) + PassagesOf(u, documents[|documents| - 1], chunks)
  }

  // ---- tables

  datatype Slot = Slot(version: Id, position: nat)

  datatype DocumentRow = DocumentRow(
    paper: Id, observation: Id, source: SourceId, title: string, abstractText: Option<string>, artifact: Sha256,
    language: Option<string>, languageFolded: Option<string>, submittedAt: Option<Time>)

  datatype NameRow = NameRow(name: string, folded: string)

  datatype PassageRow = PassageRow(paper: Id, observation: Id, identity: PassageIdentity)

  datatype PaperText = PaperText(version: Id, title: string, abstractText: Option<string>)

  datatype PassageText = PassageText(passage: Sha256, text: string)

  datatype Receipt = Receipt(
    chunkVersion: string, generation: nat, revision: nat, documents: nat, passages: nat, content: Sha256)

  /** The full-text tables are listed in rowid order. */
  datatype Tables = Tables(
    documents: map<Id, DocumentRow>, authors: map<Slot, NameRow>, identifiers: map<Slot, SearchIdentifier>,
    categories: map<Slot, string>, collections: map<Slot, Membership>, passages: map<Sha256, PassageRow>,
    paperText: seq<PaperText>, passageText: seq<PassageText>, meta: Option<Receipt>)

  const NO_TABLES := Tables(map[], map[], map[], map[], map[], map[], [], [], None)

  function RowOf(u: Unicode, d: Document): DocumentRow {
    DocumentRow(
      d.paper, d.observation, d.source, d.title, d.abstractText, d.artifact, d.language,
      if d.language.Some? then Some(WrittenFold(u, d.language.value)) else None, d.submittedAt)
  }

  function NameRows(u: Unicode, names: seq<string>): seq<NameRow> {
    seq(|names|, i requires 0 <= i < |names| => NameRow(names[i], WrittenFold(u, names[i])))
  }

  /** Consecutive rows of one version. */
  function Slots<T>(version: Id, values: seq<T>): map<Slot, T> {
    map p | 0 <= p < |values| :: Slot(version, p) := values[p]
  }

  /** The tables with the rows of one more document. */
  function PutDocument(u: Unicode, t: Tables, d: Document): Tables {
    t.(documents := t.documents[d.version := RowOf(u, d)],
       authors := t.authors + Slots(d.version, NameRows(u, d.authors)),
       identifiers := t.identifiers + Slots(d.version, d.identifiers),
       categories := t.categories + Slots(d.version, d.categories),
       collections := t.collections + Slots(d.version, d.collections),
       paperText := t.paperText + [PaperText(d.version, d.title, d.abstractText)])
  }

  function PutDocuments(u: Unicode, documents: seq<Document>): Tables {
    if documents == [] then NO_TABLES
    else PutDocument(u, PutDocuments(u, documents[..|documents| - 1]), documents[|documents| - 1])
  }

  function PutPassages(t: Tables, passages: seq<Passage>): Tables {
    if passages == [] then t
    else
      var u := PutPassages(t, passages[..|passages| - 1]);
      var p := passages[|passages| - 1];
      u.(passages := u.passages[p.id := PassageRow(p.paper, p.observation, p.identity)],
         passageText := u.passageText + [PassageText(p.id, p.identity.text)])
  }

  /** The content of a written index. */
  function Written(u: Unicode, documents: seq<Document>, passages: seq<Passage>, receipt: Receipt): Tables {
    PutPassages(PutDocuments(u, documents), passages).(meta := Some(receipt))
  }

  // ---- reading back

  function SlotKey(s: Slot): SortKey {
    [Number(s.version), Number(s.position)]
  }

  lemma SlotKeyInjective(slots: set<Slot>)
    ensures Injective(slots, SlotKey)
  {
    forall a, b | a in slots && b in slots && SlotKey(a) == SlotKey(b)
      ensures a == b
    {
      assert SlotKey(a)[0] == SlotKey(b)[0] && SlotKey(a)[1] == SlotKey(b)[1];
    }
  }

  /** ORDER BY paper_version_id, position. */
  function SlotRows<T>(table: map<Slot, T>): seq<Slot> {
    SlotKeyInjective(table.Keys);
    OrderedList(table.Keys, SlotKey)
  }

  /** The values of each version, in the order of the rows. */
  function Grouped<T>(slots: seq<Slot>, table: map<Slot, T>): map<Id, seq<T>>
    requires forall s :: s in slots ==> s in table
  {
    if slots == [] then map[]
    else
      var s := slots[|slots| - 1];
      var m := Grouped(slots[..|slots| - 1], table);
      m[s.version := (if s.version in m then m[s.version] else []) + [table[s]]]
  }

  /** The loop of the projection functions: setdefault and append, row by row. */
  method Projection<T>(slots: seq<Slot>, table: map<Slot, T>) returns (projected: map<Id, seq<T>>)
    requires forall s :: s in slots ==> s in table
    ensures projected == Grouped(slots, table)
  {
    projected := map[];
    for i := 0 to |slots|
      invariant projected == Grouped(slots[..i], table)
    {
      var s := slots[i];
      assert slots[..i + 1][..i] == slots[..i] && slots[..i + 1][i] == s;
      projected := projected[
        s.version := (if s.version in projected then projected[s.version] else []) + [table[s]]];
    }
    assert slots[..|slots|] == slots;
  }

  lemma SlotRowsAreKeys<T>(table: map<Slot, T>)
    ensures Sorted(SlotRows(table), SlotKey) && forall s :: s in SlotRows(table) <==> s in table
  {
    SlotKeyInjective(table.Keys);
    OrderedListIsOrdered(table.Keys, SlotKey);
  }

  /** What .get(paper_version_id, []) finds in the projection of a table. */
  function ColumnOf<T>(table: map<Slot, T>, version: Id): seq<T> {
    SlotRowsAreKeys(table);
    var m := Grouped(SlotRows(table), table);
    if version in m then m[version] else []
  }

  function DocumentRowKey(t: Tables): Id -> SortKey {
    v => if v in t.documents then [Number(t.documents[v].paper), Number(v), Number(t.documents[v].observation)]
         else [Number(v)]
  }

  lemma DocumentRowKeyInjective(t: Tables)
    ensures Injective(t.documents.Keys, DocumentRowKey(t))
  {
    forall a, b | a in t.documents && b in t.documents && DocumentRowKey(t)(a) == DocumentRowKey(t)(b)
      ensures a == b
    {
      assert DocumentRowKey(t)(a)[1] == DocumentRowKey(t)(b)[1];
    }
  }

  /** ORDER BY paper_id, paper_version_id, version_observation_id. */
  function DocumentRows(t: Tables): seq<Id> {
    DocumentRowKeyInjective(t);
    OrderedList(t.documents.Keys, DocumentRowKey(t))
  }

  lemma DocumentRowsAreKeys(t: Tables)
    ensures forall v :: v in DocumentRows(t) <==> v in t.documents
    ensures forall i | 0 <= i < |DocumentRows(t)| :: DocumentRows(t)[i] in t.documents
  {
    DocumentRowKeyInjective(t);
    OrderedListIsOrdered(t.documents.Keys, DocumentRowKey(t));
    forall i | 0 <= i < |DocumentRows(t)|
      ensures DocumentRows(t)[i] in t.documents
    {
      assert DocumentRows(t)[i] in DocumentRows(t);
    }
  }

  function NamesOf(rows: seq<NameRow>): seq<string> {
    seq(|rows|, i requires 0 <= i < |rows| => rows[i].name)
  }

  function ReadDocument(t: Tables, v: Id): Document
    requires v in t.documents
  {
    var row := t.documents[v];
    Document(
      row.paper, v, row.observation, row.source, row.title, row.abstractText, row.artifact,
      NamesOf(ColumnOf(t.authors, v)), ColumnOf(t.categories, v), row.language, row.submittedAt,
      ColumnOf(t.collections, v), ColumnOf(t.identifiers, v))
  }

  function ReadDocuments(t: Tables): seq<Document> {
    DocumentRowsAreKeys(t);
    var rows := DocumentRows(t);
    seq(|rows|, i requires 0 <= i < |rows| => ReadDocument(t, rows[i]))
  }

  function PassageRowKey(t: Tables): Sha256 -> SortKey {
    p =>
      if p in t.passages then
        var row := t.passages[p];
        [Number(row.paper), Number(row.identity.version), Number(row.identity.ordinal), Text(Hex(p.preimage))]
      else [Text(Hex(p.preimage))]
  }

  lemma PassageRowKeyInjective(t: Tables)
    ensures Injective(t.passages.Keys, PassageRowKey(t))
  {
    forall a, b | a in t.passages && b in t.passages && PassageRowKey(t)(a) == PassageRowKey(t)(b)
      ensures a == b
    {
      assert PassageRowKey(t)(a)[3] == PassageRowKey(t)(b)[3];
      HexInjective(a.preimage, b.preimage);
    }
  }

  /** ORDER BY paper_id, paper_version_id, ordinal, passage_id. */
  function PassageRows(t: Tables): seq<Sha256> {
    PassageRowKeyInjective(t);
    OrderedList(t.passages.Keys, PassageRowKey(t))
  }

  lemma PassageRowsAreKeys(t: Tables)
    ensures forall p :: p in PassageRows(t) <==> p in t.passages
    ensures forall i | 0 <= i < |PassageRows(t)| :: PassageRows(t)[i] in t.passages
  {
    PassageRowKeyInjective(t);
    OrderedListIsOrdered(t.passages.Keys, PassageRowKey(t));
    forall i | 0 <= i < |PassageRows(t)|
      ensures PassageRows(t)[i] in t.passages
    {
      assert PassageRows(t)[i] in PassageRows(t);
    }
  }

  function ReadPassages(t: Tables): seq<Passage> {
    PassageRowsAreKeys(t);
    var rows := PassageRows(t);
    seq(|rows|, i requires 0 <= i < |rows| =>
      Passage(rows[i], t.passages[rows[i]].paper, t.passages[rows[i]].observation, t.passages[rows[i]].identity))
  }

  // ---- the fingerprint and the receipt

  function StringsJson(values: seq<string>): Json {
    List(seq(|values|, i requires 0 <= i < |values| => Str(values[i])))
  }

  function MembershipJson(m: Membership): Json {
    Obj([Field("collection_id", NumberJson(m.collection)), Field("slug", Str(m.slug))])
  }

  function IdentifierJson(i: SearchIdentifier): Json {
    Obj([
      Field("canonical_value", Str(i.key.value)), Field("scheme", Str(i.key.scheme)),
      Field("scope", Str(if i.scope == PaperScope then "paper" else "version"))])
  }

  function DocumentJson(d: Document): Json {
    Obj([
      Field("abstract", TextJson(d.abstractText)),
      Field("artifact_sha256", DigestJson(d.artifact)),
      Field("authors", StringsJson(d.authors)),
      Field("categories", StringsJson(d.categories)),
      Field("collections", List(seq(|d.collections|, i requires 0 <= i < |d.collections| => MembershipJson(d.collections[i])))),
      Field("identifiers", List(seq(|d.identifiers|, i requires 0 <= i < |d.identifiers| => IdentifierJson(d.identifiers[i])))),
      Field("language", TextJson(d.language)),
      Field("paper_id", NumberJson(d.paper)),
      Field("paper_version_id", NumberJson(d.version)),
      Field("source_id", Str(d.source)),
      Field("submitted_at", TimeJson(d.submittedAt)),
      Field("title", Str(d.title)),
      Field("version_observation_id", NumberJson(d.observation))])
  }

  function PassageRowJson(p: Passage): Json {
    Obj([
      Field("artifact_sha256", DigestJson(p.identity.artifact)),
      Field("chunk_schema_version", Str(p.identity.chunkVersion)),
      Field("end_offset", Int(p.identity.end)),
      Field("normalized_text", Str(p.identity.text)),
      Field("ordinal", Int(p.identity.ordinal)),
      Field("paper_id", NumberJson(p.paper)),
      Field("paper_version_id", NumberJson(p.identity.version)),
      Field("passage_id", DigestJson(p.id)),
      Field("section", TextJson(p.identity.section)),
      Field("start_offset", Int(p.identity.start)),
      Field("version_observation_id", NumberJson(p.observation))])
  }

  /** _logical_content_sha256. */
  function ContentDigest(documents: seq<Document>, passages: seq<Passage>): Sha256 {
    DigestOf(Obj([
      Field("documents", List(seq(|documents|, i requires 0 <= i < |documents| => DocumentJson(documents[i])))),
      Field("passages", List(seq(|passages|, i requires 0 <= i < |passages| => PassageRowJson(passages[i]))))]))
  }

  /** The receipt that build_candidate computes before it writes anything. */
  function ReceiptOf(u: Unicode, documents: seq<Document>, chunks: string, generation: nat, revision: nat): Receipt {
    var passages := AllPassages(u, documents, chunks);
    Receipt(chunks, generation, revision, |documents|, |passages|, ContentDigest(documents, passages))
  }

  /** The stored folds of author names and languages are the ones the schema computes. */
  predicate FoldsAgree(u: Unicode, t: Tables) {
    && (forall s :: s in t.authors ==> t.authors[s].folded == CheckedFold(u, t.authors[s].name))
    && (forall v :: v in t.documents ==>
          t.documents[v].languageFolded ==
            if t.documents[v].language.Some? then Some(CheckedFold(u, t.documents[v].language.value)) else None)
  }

  function PaperTexts(documents: seq<Document>): seq<PaperText> {
    seq(|documents|, i requires 0 <= i < |documents| =>
      PaperText(documents[i].version, documents[i].title, documents[i].abstractText))
  }

  function PassageTexts(passages: seq<Passage>): seq<PassageText> {
    seq(|passages|, i requires 0 <= i < |passages| => PassageText(passages[i].id, passages[i].identity.text))
  }

  /** read_index_receipt_from_connection; None is a ValueError. */
  function ReadReceipt(u: Unicode, t: Tables): Option<Receipt> {
    if t.meta.None? then None
    else
      var r := t.meta.value;
      if r.documents != |t.documents| || |t.documents| != |t.paperText| then None
      else if r.passages != |t.passages| || |t.passages| != |t.passageText| then None
      else if !FoldsAgree(u, t) then None
      else if t.paperText != PaperTexts(ReadDocuments(t)) || t.passageText != PassageTexts(ReadPassages(t)) then None
      else if r.content != ContentDigest(ReadDocuments(t), ReadPassages(t)) then None
      else Some(r)
  }

  /** .get(paper_version_id, []) */
  function Get<T>(projected: map<Id, seq<T>>, version: Id): seq<T> {
    if version in projected then projected[version] else []
  }

  /** The documents of the receipt payload: the four projections, then a row at a time. */
  method ReadBack(t: Tables) returns (documents: seq<Document>)
    ensures documents == ReadDocuments(t)
  {
    hide OrderedList, SlotKey, Grouped, SlotRows, DocumentRows, NamesOf, Sorted, DocumentRowKey;
    SlotRowsAreKeys(t.authors);
    SlotRowsAreKeys(t.categories);
    SlotRowsAreKeys(t.identifiers);
    SlotRowsAreKeys(t.collections);
    DocumentRowsAreKeys(t);
    var authors := Projection(SlotRows(t.authors), t.authors);
    var categories := Projection(SlotRows(t.categories), t.categories);
    var identifiers := Projection(SlotRows(t.identifiers), t.identifiers);
    var collections := Projection(SlotRows(t.collections), t.collections);
    var rows := DocumentRows(t);
    documents := [];
    for i := 0 to |rows|
      invariant |documents| == i && forall k | 0 <= k < i :: documents[k] == ReadDocument(t, rows[k])
    {
      var v := rows[i];
      var row := t.documents[v];
      documents := documents + [Document(
        row.paper, v, row.observation, row.source, row.title, row.abstractText, row.artifact,
        NamesOf(Get(authors, v)), Get(categories, v), row.language, row.submittedAt,
        Get(collections, v), Get(identifiers, v))];
    }
  }

  /** The checks of read_index_receipt_from_connection, in order. */
  method LoadReceipt(u: Unicode, t: Tables) returns (r: Option<Receipt>)
    ensures r == ReadReceipt(u, t)
  {
    if t.meta.None? {
      return None;
    }
    var stored := t.meta.value;
    if stored.documents != |t.documents| || |t.documents| != |t.paperText|
       || stored.passages != |t.passages| || |t.passages| != |t.passageText| {
      return None;
    }
    var documents := ReadBack(t);
    var passages := ReadPassages(t);
    if !FoldsAgree(u, t) || t.paperText != PaperTexts(documents) || t.passageText != PassageTexts(passages)
       || stored.content != ContentDigest(documents, passages) {
      return None;
    }
    return Some(stored);
  }
}
