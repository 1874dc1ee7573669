# Paper Insights: catalog, ingestion and search index

This project models the parts of Paper Insights that keep state, and proves what they promise. It covers:

- **The catalog.** The tables of the SQLite database, the repositories that change them statement by statement,
  and the unit of work with its revision counter. The invariant (`CatalogInvariant.Inv`) holds the keys, foreign
  keys, unique indexes, checks and triggers of the schema, the identity facts the repositories rely on, and a count
  of which item created which row. Checks on the shape of digests, UUIDs and paths, on signs and on booleans are
  left to the types, and an error message is a function of its code.
- **Ingestion.** Blobs first, then one transaction per item, with a crash possible between any two steps, other
  ingestions in between, and a repairer that ends runs a crashed process left running.
- **The search index.** A listing of the catalog, a builder that writes it into positional tables, a publication
  with rollback under a revision lease, and readers that report whether they agree with the catalog.
- **Discovery.** The page loop of the arXiv client, the selection, the digest and the order of stored instants.
- **Printers.** The author field of BibTeX, its citation key, and the escapes of Markdown, each with its reader.

## Files

| files | content |
|---|---|
| `Base`, `CatalogSchema`, `CatalogSpec`, `CatalogInvariant` | values, tables, what each operation does, the invariant |
| `RecordProofs`, `RecordInvariant`, `RunProofs`, `CatalogGrowth` | each operation keeps the invariant and only grows what is identified |
| `RecordAnswers`, `RunAnswers`, `CollectionAnswers` | what each operation stores, answers and refuses, in terms of the rows before |
| `PaperIdentity`, `SharedPapers` | which records share a paper or a version, over every history |
| `CatalogHistory`, `ReachableCatalogs`, `Collections` | units, revisions and whole histories from the empty catalog |
| `Statements`, `StatementProofs`, `UnitOfWork`, `RunRepository`, `CollectionRepository`, `Units` | the repositories as classes and methods; every INSERT has the schema's constraints as its precondition |
| `Idempotence`, `Execution`, `Reexecution`, `Application` | recording a record again, an execution that nothing interrupts, and the services |
| `Saga`, `SagaProofs`, `Recovery` | many processes, crashes and repairs as a state machine |
| `Completion` | a process that nothing disturbs does what `execute` does |
| `Verdicts`, `Repetition` | what becomes of each record in every interleaving, and what a later run of the same plan makes of it |
| `Ordering`, `IndexDocuments`, `RefusedListing`, `IndexContent` | the listing of the catalog, in order |
| `IndexProtocol`, `IndexProtocolProofs`, `IndexCoverage`, `IndexProgress` | writers, rebuilders and readers as a state machine |
| `Files`, `BlobStore`, `Publication` | names, inodes, partial writes, faults, and what is visible after each step |
| `CanonicalJson`, `JsonReader`, `Digests` | canonical text, its reader, and digests of it |
| `IndexTables`, `IndexReadBack`, `IndexWriter`, `IndexPassages`, `IndexFingerprint` | the tables of an index, its passages, and what is read back |
| `Discovery`, `Preparation`, `IsoTime` | the page loop, the selection and its digest, text order of instants |
| `Bibtex`, `Markdown` | printers and their readers |

## How the model stands for the program

- A write transaction is one atomic step, and a snapshot reads one state: what `BEGIN IMMEDIATE` and SQLite's
  snapshots provide. The invariant is stated on what is committed; inside a unit the repository methods work on the
  transaction's own tables, and leaving the unit without a commit drops them.
- SHA-256 is ideal: a digest is a constructor applied to its preimage. Digests are compared, never computed.
- Identifiers come from a counter and are never reused, so an identifier created later is larger. Instants are
  numbers; `IsoTime` proves that the text stored for them sorts in the same order. Inside canonical JSON both are
  printed as decimal text, and a digest as the hexadecimal text of its preimage.
- Rows keyed by a surrogate id and an ordinal (pages, selected records, authors, categories) are sequences;
  `stored_blobs` is keyed by its digest; the nullable link column of `snapshot_records` is a map of its own.
  Unique indexes over two columns are maps kept beside their table.
- The query text of a run is canonical JSON with its schema version, which is what the command prints and more than
  the checks on `query_json` ask.
- An operation reads the clock once. Where the program reads it twice, only the stored time can differ.
- Unicode normalization, case folding and general categories are parameters of the theorems that use them.
- A write to a file takes at least one byte or fails. Private file names are numbered instead of random.
- Python integers are unbounded, as `int` and `nat` are here.

## What turned out different from what one would claim

Each is proved as an exact condition for all inputs, or for all reachable catalogs.

- `list_index_documents` can raise although every constraint of the catalog holds: the catalog accepts a blank
  author name, category or language, and the document constructor does not. `RefusedListing.ListingCanRaise` gives
  two committed units that lead there, with a category of one space, which the arXiv normalizer passes on
  (`src/paper_insights/adapters/providers/arxiv/normalizer.py:132-137`); `ReachableCatalogs.ListingRaisesExactlyThen` gives the exact condition.
- `record_item` ends in an integrity error exactly for a new observation with a repeated category or a blank title
  (`Idempotence.IntegrityIffNotStorable`). The execution then stops and leaves its run to a repair.
- The current version of a paper is the one created last, whatever its number (`IndexDocuments.OneDocumentPerLine`).
- A DOI may sit in both identifier tables for different papers; resolving it is then a conflict
  (`Collections.DoiIsUniqueOrConflict`).
- A publication can raise with the new index already live: after the inner try, while the candidate is removed
  (`Publication.Builder.Publish`, outcome `AfterReplace`).
- The two fold functions differ exactly on carriage returns, so a candidate whose authors or language contain one
  fails its own verification (`IndexReadBack.ReadsBackIffNoReturn`).
- A code span does not read back for the empty value, nor for white space between two spaces that is not spaces
  alone: the padding is not applied, and the reader strips one space from each end
  (`Markdown.CodeSpanReadsBack`; `Markdown.EmSpaceIsLost` is such a value).
- The digest of a prepared discovery does not cover media types, next cursors or observation fields
  (`Preparation.DigestCovers`).

## Model

| member | source | states |
|---|---|---|
| `UnitOfWork.Session.RecordItem` | src/paper_insights/adapters/catalog/sqlite/uow.py:469-716 | written statement by statement; on success the tables, the item and the visible mark are those of the specification of record_item, and no key, foreign key, unique index, check or trigger can refuse a statement (each is a precondition of its INSERT); for a record without an item the outcome, the created paper and the newness of each id are what the rows before and the observation determine; on an error the unit is not marked |
| `UnitOfWork.Session.Resolve` | src/paper_insights/adapters/catalog/sqlite/uow.py:492-538 | the two loops over identifiers find the target of the specification or report a conflict; the version is new exactly when no row has its source and key, and the paper exactly when besides no paper identifier of the observation is bound |
| `UnitOfWork.Session.ObserveVersion` | src/paper_insights/adapters/catalog/sqlite/uow.py:589-660 | a known digest is reused; a new one adds exactly one observation, its authors, categories, blob and artifact, or raises |
| `UnitOfWork.Session.InsertCategories` | src/paper_insights/adapters/catalog/sqlite/uow.py:743-782 | fails exactly when two categories have the same value, otherwise stores the list in order |
| `UnitOfWork.Session.CompleteItem` | src/paper_insights/adapters/catalog/sqlite/uow.py:661-716 | links the record, binds every identifier with its evidence and inserts the item; the late check of the linked observation never fires |
| `UnitOfWork.Session.BindPaperKey` | src/paper_insights/adapters/catalog/sqlite/uow.py:784-864 | INSERT OR IGNORE of an identifier whose target is the given one; the target check after it never fires |
| `RecordProofs.LinkedIsResolved` | src/paper_insights/adapters/catalog/sqlite/uow.py:661-663 | when the linked observation agrees with the incoming one, the resolved version and digest lead to that same observation |
| `RecordProofs.IdentifiersReachTarget` | src/paper_insights/adapters/catalog/sqlite/uow.py:844-864 | after the inserts every identifier of the record maps to the resolved target |
| `RecordInvariant.EarlyChecks` | src/paper_insights/adapters/catalog/sqlite/uow.py:469-556 | the early checks of record_item imply row by row what each later statement needs |
| `RecordInvariant.AbsorbRaises` | src/paper_insights/adapters/catalog/sqlite/uow.py:589-660 | after the early checks only a new observation can fail: an integrity error exactly when its title is blank or a category repeats, a conflict exactly when its blob row has other columns |
| `RecordInvariant.RecordKeepsInv` | src/paper_insights/adapters/catalog/sqlite/uow.py:469-716 | record_item keeps the whole relational invariant of the catalog |
| `RecordAnswers.RecordAnswersOutcome` | src/paper_insights/adapters/catalog/sqlite/uow.py:492-716 | from the rows before and the observation alone: new_version exactly if no version has its source and key, unchanged exactly if an observation of that version has its digest, and a created paper exactly if the version is new and no paper identifier of the observation is bound; an id is new exactly then |
| `RecordAnswers.RecordAnswersVersions` | src/paper_insights/adapters/catalog/sqlite/uow.py:558-587 | a created paper and a new version get their rows; of the older versions exactly those of the same paper and source stop being current |
| `RecordAnswers.RecordAnswersObservation` | src/paper_insights/adapters/catalog/sqlite/uow.py:589-660 | a new observation stores the observed metadata, its i-th author and category as the i-th rows, one artifact and its blob; an unchanged one stores nothing |
| `RecordAnswers.RecordAnswersIdentifiers` | src/paper_insights/adapters/catalog/sqlite/uow.py:661-716 | exactly the identifiers that the observation shows become bound, to its paper or version, with evidence at its place; the record is linked and the item inserted, and nothing else is written |
| `RecordAnswers.RecordRefuses` | src/paper_insights/adapters/catalog/sqlite/uow.py:492-660 | an admitted record is a conflict exactly if it was resolved elsewhere, its identifiers contradict the rows, or its new document has the digest of another kind of blob, and an integrity error exactly if otherwise its new observation has a blank title or repeats a category |
| `SharedPapers.OnePaperIffConnected` | src/paper_insights/adapters/catalog/sqlite/uow.py:492-565 | after every history two recorded items have one paper exactly when a chain of identifiers that committed records showed connects their places, and one version exactly when both showed a version identifier in common |
| `SharedPapers.EvidenceIsTold` | src/paper_insights/adapters/catalog/sqlite/uow.py:784-864 | after every history the stored evidence is exactly what the committed records showed, and every identifier is bound to the paper or version of each record that showed it |
| `SharedPapers.ArxivFindsItsPaper` | src/paper_insights/adapters/catalog/sqlite/uow.py:1259-1264 | after every history an arXiv identifier is found exactly when some committed record showed it for its paper, as the paper of every such record; it is never ambiguous |
| `StatementProofs.ArtifactRowFits` | alembic/versions/0001_initial_catalog.py:745-766 | the new artifact satisfies its unique keys, its foreign keys and the digest trigger |
| `StatementProofs.ObservationRowFits` | src/paper_insights/adapters/catalog/sqlite/models.py:105-160 | the new observation satisfies its unique key and the composite foreign keys of its provenance |
| `RunProofs.AttachKeepsInv` | src/paper_insights/adapters/catalog/sqlite/uow.py:164-238 | attaching a run, with captures reused or inserted page by page, keeps the invariant, including the checks on query_json and media types |
| `RunProofs.FailureKeepsInv` | src/paper_insights/adapters/catalog/sqlite/uow.py:899-966 | recording a failure keeps the invariant |
| `RunProofs.FinalizeKeepsInv` | src/paper_insights/adapters/catalog/sqlite/uow.py:987-1051 | finishing a run keeps the invariant |
| `RunProofs.RepairKeepsInv` | src/paper_insights/adapters/catalog/sqlite/uow.py:1053-1104 | repair never raises; it ends exactly the runs that are running and older than the cutoff, and then every selected record has exactly one item |
| `RunProofs.TallyIsConsistent` | src/paper_insights/domain/corpus.py:97-127 | the totals computed for a run always pass the checks of RunCounters: they add up to its items, and new papers never exceed new versions |
| `RunProofs.CompleteRun` | src/paper_insights/adapters/catalog/sqlite/uow.py:987-1015 | as many items as selected records means an item for each selected record and no other |
| `RunAnswers.AttachAnswers` | src/paper_insights/adapters/catalog/sqlite/uow.py:164-364 | attaching a new run stores each page under its snapshot, the pages and the selected records in order, and a run running since now with empty totals; known captures keep their snapshots and nothing else changes |
| `RunAnswers.AttachesIffAttachable` | src/paper_insights/adapters/catalog/sqlite/uow.py:240-364 | a new run is attached exactly when its source exists, each known capture is stored as given, and no digest names a blob of another size, kind or path, in the catalog or within the command |
| `RunAnswers.AttachingAgain` | src/paper_insights/adapters/catalog/sqlite/uow.py:366-440 | in every later catalog the same command answers the same snapshots and changes nothing, and any other command under its run is a conflict |
| `RunAnswers.AdmissionAnswers` | src/paper_insights/adapters/catalog/sqlite/uow.py:484-492 | record_item goes on exactly with records selected for a running run of the same source, on the page and with the item and version that the observation names |
| `RunAnswers.RecordingAgain` | src/paper_insights/adapters/catalog/sqlite/uow.py:469-483 | in every later catalog recording an item again answers it unchanged exactly for the digest it was recorded with, and is a conflict otherwise |
| `RunAnswers.FailureAnswers` | src/paper_insights/adapters/catalog/sqlite/uow.py:899-966 | a failure is recorded exactly for a selected record of a running run, with its stage, code and time |
| `RunAnswers.FailingAgain` | src/paper_insights/adapters/catalog/sqlite/uow.py:899-934 | in every later catalog a failure is answered again exactly for the same stage and code, and is a conflict for another or for an item that succeeded |
| `RunAnswers.FinalizeAnswers` | src/paper_insights/adapters/catalog/sqlite/uow.py:987-1051 | finalize ends a running run now, with the answered counters, exactly if every selected record has an item; it answers the counters of an ended run, and raises not found or the mismatch otherwise |
| `RunAnswers.RepairAnswers` | src/paper_insights/adapters/catalog/sqlite/uow.py:1053-1104 | repair ends a run exactly if it is running and was started before the cutoff; each selected record without an item gets an interrupted failure at the time of the command, and everything else stays |
| `RunRepository.AttachPreparedRun` | src/paper_insights/adapters/catalog/sqlite/uow.py:164-238 | imperative attach with its page loop equals the specification; it marks the unit visible exactly for an unknown run, and reports the snapshots of the pages and the revision that a commit right then would give |
| `RunRepository.ReplayRun` | src/paper_insights/adapters/catalog/sqlite/uow.py:366-440 | a known run is accepted exactly when every stored row equals the command, and then reported with its snapshots and the revision after a commit |
| `RunRepository.RecordFailure` | src/paper_insights/adapters/catalog/sqlite/uow.py:899-934 | imperative failure recording equals the specification in every branch, and changes nothing when it raises |
| `RunRepository.FinalizeRun` | src/paper_insights/adapters/catalog/sqlite/uow.py:987-1051 | imperative finalize equals the specification, whose answer RunAnswers.FinalizeAnswers and Recovery.EndedStatusFollowsItems state from the items; a raised mismatch changes nothing |
| `RunRepository.RepairInterruptedRun` | src/paper_insights/adapters/catalog/sqlite/uow.py:1053-1104 | the loop over missing records and the finalize step equal the specification, whose answer RunAnswers.RepairAnswers and Recovery.EndedStatusFollowsItems state from the rows; never raises, and reports the revision after a commit |
| `CatalogHistory.MarksMeansChanged` | src/paper_insights/adapters/catalog/sqlite/uow.py:1378-1410 | an operation marks its unit visible exactly when it changed a row |
| `CatalogHistory.UnitKeeps` | src/paper_insights/adapters/catalog/sqlite/uow.py:1335-1410 | a unit that rolls back on error keeps the invariant and only grows the identity tables; it raises the revision by one exactly when it is committed and some operation of it changed a row |
| `CatalogHistory.ReportIsCommittedRevision` | src/paper_insights/adapters/catalog/sqlite/uow.py:1387-1394 | in a unit of any operations, the revision that one of them reports is the committed one exactly when an operation up to it changed a row or none after it does |
| `CatalogHistory.EqualRevisionsEqualContent` | src/paper_insights/adapters/catalog/sqlite/uow.py:1387-1405 | any two snapshots of one history with equal revisions have equal content, and what is identified stays identified |
| `CatalogHistory.RunTotalsAccountForCorpus` | src/paper_insights/adapters/catalog/sqlite/uow.py:968-1051 | from the empty catalog, once no run is running, the run totals sum to the number of papers, versions and observations |
| `ReachableCatalogs.IdentityIsKept` | src/paper_insights/adapters/catalog/sqlite/uow.py:558-660 | after every history each line of versions has exactly one current version, each version's own identifier names it, and each observation has exactly one artifact with its digest |
| `ReachableCatalogs.RevisionCountsChanges` | src/paper_insights/adapters/catalog/sqlite/uow.py:1387-1405 | after every history a unit of one operation raises the revision by one if it changed the catalog and by zero if not |
| `ReachableCatalogs.UnitMovesRevision` | src/paper_insights/adapters/catalog/sqlite/uow.py:1396-1405 | after every history a unit of any operations raises the revision by one exactly when it is committed and some operation of it changed a row |
| `ReachableCatalogs.ReportedRevisionIsCommitted` | src/paper_insights/adapters/catalog/sqlite/uow.py:164-238 | after every history, the same of the revision reported by attach or repair: it equals the committed one unless the unit makes its first change later |
| `ReachableCatalogs.OneDocumentEach` | src/paper_insights/adapters/catalog/sqlite/readers.py:323-418 | after every history each version's paper and source have exactly one listed document: the version created last, with its newest observation |
| `ReachableCatalogs.ListingRaisesExactlyThen` | src/paper_insights/adapters/catalog/sqlite/readers.py:323-418 | after every history the listing finds each row it follows, and raises exactly when a newest observation of a current version has a blank author, category or language |
| `Units.RunUnitOfWork` | src/paper_insights/adapters/catalog/sqlite/uow.py:1323-1410 | the class with its saved copy, visible flag, commit and rollback equals the unit of the histories, and each operation that reports a revision reports what a commit right after it would give |
| `Units.Perform` | src/paper_insights/adapters/catalog/sqlite/uow.py:107-1320 | each repository method does to an open unit what the histories say of its operation, and reports its revision |
| `Idempotence.ResolvesIffSomethingFits` | src/paper_insights/adapters/catalog/sqlite/uow.py:492-556 | resolution succeeds exactly when some paper and version contradict no identifier row and no version row, and finds such ones; that an unknown paper gets a new row is RecordAnswers.RecordAnswersOutcome |
| `Idempotence.ConflictIffRefused` | src/paper_insights/adapters/catalog/sqlite/uow.py:469-556 | record_item raises a conflict exactly when the link disagrees, no paper and version fit, or the digest names a blob of another kind |
| `Idempotence.IntegrityIffNotStorable` | src/paper_insights/adapters/catalog/sqlite/models.py:493-509 | for an admitted record, an integrity error means exactly a new observation with a blank title or a repeated category |
| `Idempotence.RefusedForever` | src/paper_insights/adapters/catalog/sqlite/uow.py:492-556 | a refused record stays refused in every later catalog |
| `Idempotence.AbsorbedForever` | src/paper_insights/adapters/catalog/sqlite/uow.py:589-664 | an absorbed record stays absorbed, with the same ids, in every later catalog |
| `Idempotence.AbsorbedIsUnchanged` | src/paper_insights/adapters/catalog/sqlite/uow.py:589-716 | recording an absorbed record under another run gives an unchanged item with the same paper, version and observation, and no new rows of those tables |
| `Application.ExecutePrepared` | src/paper_insights/application/ingestion/execute.py:56-153 | confirmation, expiry and metadata are checked first, each with its own answer; no catalog write happens before every blob is stored; a returned summary means the catalog is what the re-execution theorems speak of |
| `Application.ValidatedMetadata` | src/paper_insights/application/ingestion/execute.py:139-153 | accepts exactly the plans whose canonical documents have the digests of their observations |
| `Application.RecordUnit` | src/paper_insights/application/ingestion/execute.py:155-177 | one transaction per item; a conflict is rolled back and recorded as a failure in a second transaction |
| `Application.RepairAll` | src/paper_insights/application/ingestion/repair.py:54-74 | one transaction per candidate; a candidate is reported with the counters of its ended run exactly if it was eligible and not listed before; afterwards none is eligible, and without confirmation nothing changes |
| `Application.RepairUnit` | src/paper_insights/adapters/catalog/sqlite/uow.py:1053-1104 | the revision reported by a repair is the committed one, one higher exactly when the run was eligible |
| `SagaProofs.StepKeeps` | src/paper_insights/application/ingestion/execute.py:56-127 | every step of any number of ingestions, crashes, repairs and collection edits keeps the invariant, the stored blobs and what each process relies on |
| `Verdicts.StepJudges` | src/paper_insights/application/ingestion/execute.py:102-127 | every step of any process, crash, repair or edit keeps the verdict of every item and gives one to each item it adds |
| `Repetition.ItemsAreJudged` | src/paper_insights/application/ingestion/execute.py:102-127 | in every reachable world each item of each run that was ever attached is absorbed under its ids, or is a conflict that the catalog still refuses, or was interrupted |
| `Repetition.EndedIngestionRecordedItsPlan` | src/paper_insights/application/ingestion/execute.py:102-127 | an ingestion that returns has, for each selected record of its plan, an item at the snapshot of the page: the selected observation with all its identifiers bound to the item's paper and version, or a failure with its error; its run names the source, digest and query of the plan |
| `Completion.UndisturbedIngestion` | src/paper_insights/application/ingestion/execute.py:56-127 | from every reachable world, an ingestion that is started and that nothing disturbs does what execute does under the next run id: it returns the same counters over the same catalog, or dies of the same error |
| `Completion.ExecuteSucceeds` | src/paper_insights/application/ingestion/execute.py:102-127 | an execution comes to its end whenever its pages can be attached and no observation has a blank title or repeats a category: conflicts of single records do not stop it |
| `Repetition.ExecutingAgain` | src/paper_insights/adapters/catalog/sqlite/uow.py:492-556 | a run of a plan attached after any moment repeats, record by record, what another run of the plan had by then, whatever else commits, crashes or is repaired: a success becomes unchanged with equal ids, a conflict a conflict, unless a repair cuts it short; and no observation comes from such an item |
| `Repetition.EndedRunsRepeat` | src/paper_insights/adapters/catalog/sqlite/uow.py:589-664 | of two ended runs of a plan, the later attached after the earlier ended, by itself or by a repair, every record has an item in both and the later repeats the earlier |
| `Repetition.AdderIsOrigin` | src/paper_insights/adapters/catalog/sqlite/uow.py:589-660 | an item that says it added an observation is the origin of that observation |
| `Repetition.RowsComeFromAdders` | src/paper_insights/adapters/catalog/sqlite/uow.py:558-660 | between two moments the catalog gains exactly as many papers, versions and observations as new items say they added |
| `Repetition.AttachingAgainSucceeds` | src/paper_insights/adapters/catalog/sqlite/uow.py:240-364 | attaching a plan again never conflicts and finds the same snapshots |
| `Repetition.RecordingAgainSucceeds` | src/paper_insights/application/ingestion/execute.py:155-177 | recording a record that an earlier run of the plan recorded succeeds as unchanged under the same ids and adds no paper, version or observation |
| `Repetition.RefusingAgain` | src/paper_insights/adapters/catalog/sqlite/uow.py:492-556 | recording a record that an earlier run of the plan could not record for a conflict is a conflict again and changes nothing |
| `Repetition.RefusedIsRecorded` | src/paper_insights/application/ingestion/execute.py:116-122 | a refused process records the conflict as the failure of its item and goes on to the next record |
| `Recovery.CatalogBlobsAreStored` | src/paper_insights/application/ingestion/execute.py:62-100 | in every reachable world each blob named by the catalog is in the store with its digest and size |
| `Recovery.NoProcessMeetsMismatch` | src/paper_insights/adapters/catalog/sqlite/uow.py:1013-1015 | no process ever meets the mismatch error of finalize_run, however repairs interleave |
| `Recovery.FinishedRunsAreExact` | src/paper_insights/adapters/catalog/sqlite/uow.py:987-1104 | a run that left running has exactly one item per selected record, and totals to match |
| `Recovery.EndedStatusFollowsItems` | src/paper_insights/domain/corpus.py:97-127 | in every reachable world an ended run is succeeded exactly if none of its items failed, partial exactly if some failed and some did not, and failed exactly if it has items and all failed; each counter is the number of items it is about |
| `Recovery.EndedProcessReports` | src/paper_insights/application/ingestion/execute.py:124-127 | the counters that an ingestion returns count the items of its run, however repairs interleave |
| `Recovery.EndedRunsAreFrozen` | src/paper_insights/adapters/catalog/sqlite/uow.py:899-1104 | once a run left running, no later event changes the run, its items or its errors |
| `Recovery.RepairRecoversAnyCrash` | src/paper_insights/adapters/catalog/sqlite/uow.py:1053-1104 | from any reachable world one repair past the cutoff ends a running run for good: existing items stay, missing ones become interrupted failures |
| `Recovery.SlowProcessChangesNothing` | src/paper_insights/application/ingestion/execute.py:110-127 | a process whose run was ended by a repair no longer changes the catalog |
| `IndexDocuments.ListIndexDocuments` | src/paper_insights/adapters/catalog/sqlite/readers.py:323-418 | the loop raises exactly when some document fails its constructor; what it returns lists each current version once, ordered by paper, source and version, with its newest observation, and every field from the rows: title, abstract, language, submission time and artifact of the observation, authors and categories in stored order, the memberships that have a row, and the identifiers of the paper and of the version, both lists sorted |
| `IndexDocuments.ListingRaisesIffNotIndexable` | src/paper_insights/domain/retrieval.py:118-148 | in every catalog with the invariant, the constructor checks fail exactly for a blank author, category or language in a listed observation |
| `IndexDocuments.OneDocumentPerLine` | src/paper_insights/adapters/catalog/sqlite/readers.py:323-418 | every paper and source with versions has exactly one document: the version created last, with an observation of it that no other is newer than |
| `IndexDocuments.ListedArtifactExists` | src/paper_insights/adapters/catalog/sqlite/readers.py:332-352 | the artifact join of the listing yields exactly one row, of the observation's digest |
| `RefusedListing.ListingCanRaise` | src/paper_insights/domain/retrieval.py:118-148 | two committed units with a query text and a category that the program stores lead to a catalog that meets the invariant and whose listing raises |
| `IndexContent.ArrangedIsPermutation` | src/paper_insights/adapters/search/sqlite_fts/builder.py:112-125 | the builder's sort is total on a listing and keeps exactly its documents |
| `IndexProtocolProofs.NextKeeps` | src/paper_insights/application/research/index.py:16-38 | every step of writers, rebuilders and readers, with faults and crashes, keeps the protocol invariant |
| `IndexCoverage.CompleteMeansAgrees` | src/paper_insights/adapters/search/sqlite_fts/reader.py:104-168 | a search that reports complete coverage used exactly the documents that the catalog lists at the reported revision, even if it read during a publication that was rolled back |
| `IndexCoverage.PublishedIsWhole` | src/paper_insights/adapters/search/sqlite_fts/builder.py:163-260 | in every reachable world the published name is unbound or shows a whole index of some past revision |
| `IndexCoverage.CompletedGenerationsIncrease` | src/paper_insights/adapters/search/sqlite_fts/builder.py:393-420 | generations of completed publications strictly increase, so two rebuilds numbered from one generation cannot both complete |
| `IndexCoverage.NameChangesLegally` | src/paper_insights/adapters/search/sqlite_fts/builder.py:163-260 | the published name only moves between what was there before and the candidate of the lease holder |
| `IndexCoverage.PublishingIsCurrent` | src/paper_insights/adapters/catalog/sqlite/readers.py:673-711 | a publication completes only while its revision is the catalog's |
| `IndexCoverage.CompletedStaysComplete` | src/paper_insights/application/research/index.py:16-38 | after a completed publication at the current revision the published index agrees with the catalog until a commit, whatever other rebuilds do |
| `IndexCoverage.SearchIsComplete` | src/paper_insights/adapters/search/sqlite_fts/reader.py:326-331 | then a search that is not interrupted reports complete coverage |
| `IndexProgress.RebuildPublishes` | src/paper_insights/application/research/index.py:16-38 | from every reachable world whose listing does not raise and in which nobody publishes, a rebuild that meets no fault publishes that listing at the current revision with the next generation, and releases the lease |
| `IndexProgress.RollbackRestores` | src/paper_insights/adapters/search/sqlite_fts/builder.py:332-391 | a fault after the new index went live and a rollback that meets no further one leave what was published before, or nothing if nothing was |
| `BlobStore.Put` | src/paper_insights/adapters/artifacts/filesystem/store.py:28-65 | the blob appears whole or not at all at every step, whatever write sizes and faults occur; a present blob is not touched |
| `BlobStore.PublishAt` | src/paper_insights/adapters/artifacts/filesystem/store.py:295-340 | the write loop, the check and the rename store exactly the content, or leave the final name as it was |
| `BlobStore.VerifiedBytes` | src/paper_insights/adapters/artifacts/filesystem/store.py:365-395 | returns the stored bytes only if they are the preimage of the digest, and refuses any other |
| `Publication.Builder.CopyInto` | src/paper_insights/adapters/search/sqlite_fts/builder.py:500-512 | the block loop copies every byte however little each write takes |
| `Publication.Builder.CopyPrivate` | src/paper_insights/adapters/search/sqlite_fts/builder.py:451-498 | a private copy is byte-equal, or absent |
| `Publication.Builder.BuildCandidate` | src/paper_insights/adapters/search/sqlite_fts/builder.py:110-161 | the candidate carries the next generation, reads back as the receipt of the request, and its file is an index of it: exactly the requested documents in order, for each the title and the abstract that are not blank as passages 0 and 1 with their texts, offsets and provenance and no other passage, and the full-text and folded columns of them; nothing published changes |
| `Publication.Builder.ReceiptMeansContent` | src/paper_insights/adapters/search/sqlite_fts/schema.py:287-320 | a file that reads as the receipt of a request is an index of exactly its documents and their passages, both in order, however it was written, and the receipt counts both |
| `Publication.Builder.Publish` | src/paper_insights/adapters/search/sqlite_fts/builder.py:163-261 | at every step the name shows what it showed before (an index, or nothing) or the whole candidate; success raises the generation by one; a failed inner try that rolls back leaves the previous content; a later failure leaves the new index live |
| `Publication.Builder.RestorePrevious` | src/paper_insights/adapters/search/sqlite_fts/builder.py:332-391 | a rollback that returns leaves the name as it was before the publication |
| `Publication.Builder.Discard` | src/paper_insights/adapters/search/sqlite_fts/builder.py:270-284 | drops only an owned candidate and never touches the published name |
| `Publication.Builder.Rebuild` | src/paper_insights/application/research/index.py:16-38 | returns only if the revision did not move; then the published file holds exactly the requested documents, under the next generation |
| `IndexWriter.WriteCandidate` | src/paper_insights/adapters/search/sqlite_fts/builder.py:662-808 | with every key and foreign key of the tables checked at each insert, it succeeds exactly when no two documents share an observation, no document repeats an identifier, category, collection or slug, and both folds agree; the tables then read back as the documents |
| `IndexWriter.CatalogDocumentsFit` | src/paper_insights/adapters/search/sqlite_fts/builder.py:112-150 | the documents of a catalog whose listing does not raise meet every key of the index tables |
| `IndexWriter.AcceptedIsKeyed` | src/paper_insights/domain/retrieval.py:118-148 | the constructor checks of an index document imply the unique keys of its child tables |
| `IndexTables.ReadBack` | src/paper_insights/adapters/search/sqlite_fts/schema.py:322-360 | the projection loops and the loop over document rows rebuild exactly the documents that the tables hold |
| `IndexTables.Projection` | src/paper_insights/adapters/search/sqlite_fts/schema.py:422-472 | the setdefault and append loop groups the rows by version, in order |
| `IndexReadBack.WrittenReadsBack` | src/paper_insights/adapters/search/sqlite_fts/schema.py:287-472 | splitting documents into positional tables and rebuilding them is the identity; the receipt read back is the one computed before exactly when both folds agree |
| `IndexReadBack.AlikeIffNoReturn` | src/paper_insights/adapters/search/sqlite_fts/schema.py:437-438 | the two fold functions agree on a document exactly when its authors and language have no carriage return |
| `IndexReadBack.ReadsBackIffNoReturn` | src/paper_insights/adapters/search/sqlite_fts/builder.py:58-59 | building and verifying a candidate succeeds exactly for such documents |
| `IndexReadBack.PassagesInOrder` | src/paper_insights/adapters/search/sqlite_fts/builder.py:62-92 | passages are written in the order in which the receipt query reads them |
| `IndexReadBack.PassageIdsDistinct` | src/paper_insights/domain/retrieval.py:86-98 | no two passages of an index have the same identifier |
| `IndexPassages.PassagesAreTitlesAndAbstracts` | src/paper_insights/adapters/search/sqlite_fts/builder.py:62-92 | the passages of documents are exactly: for each title that is not blank after normalization, section title, ordinal 0, and for each such abstract, section abstract, ordinal 1, with the whole normalized text and the ids of the document |
| `IndexPassages.LinesOfReturn` | src/paper_insights/adapters/search/sqlite_fts/builder.py:54-55 | with LinesOfBreak and LinesOfPlainText: line normalization turns each carriage return with or without a line feed into one line feed, and nothing else |
| `IndexTables.PassageIdInjective` | src/paper_insights/domain/retrieval.py:86-98 | a passage identifier determines all eight components of the passage identity |
| `IndexFingerprint.FingerprintDeterminesContent` | src/paper_insights/adapters/search/sqlite_fts/schema.py:322-420 | equal content digests mean equal documents and passages, in the same order |
| `CanonicalJson.RenderInjective` | src/paper_insights/domain/acquisition.py:321-341 | the canonical JSON printer is injective |
| `JsonReader.RenderReads` | src/paper_insights/domain/acquisition.py:321-341 | canonical text reads back, by a reader for the grammar of RFC 8259, as the value it was printed from |
| `CanonicalJson.EscapeIsPrefixCode` | src/paper_insights/domain/acquisition.py:321-341 | the string escapes of section 7 of RFC 8259, as json.dumps applies them, form a prefix code |
| `Digests.Utf8Injective` | src/paper_insights/domain/retrieval.py:86-98 | UTF-8 encoding is injective |
| `Digests.DigestInjective` | src/paper_insights/domain/retrieval.py:86-98 | equal digests mean equal payloads |
| `Discovery.Discover` | src/paper_insights/adapters/providers/arxiv/client.py:144-236 | the page loop returns exactly the first `limit` valid entries of distinct versions from the cursor, in at most `max_pages` fetches, and what it returns passes every check of the batch; each page has the payload, fingerprint, time and record keys of its own start, and names the start of the next exactly if there is one; it reports the page cap exactly when the cap leaves room and entries unread |
| `Discovery.FetchPage` | src/paper_insights/adapters/providers/arxiv/client.py:158-228 | one iteration reads the next block of the feed, under the payload and fingerprint of its start, and leaves the next start as cursor exactly when there is room and more to read |
| `Discovery.EnoughPages` | src/paper_insights/adapters/providers/arxiv/client.py:219-226 | the page cap never cuts a search short when the pages but one have room for the limit and for size + 1 entries more for each entry that yields nothing |
| `Discovery.FirstsAre` | src/paper_insights/adapters/providers/arxiv/client.py:169-183 | the entries kept are exactly those whose version no earlier entry observes, in order |
| `Preparation.SelectionReads` | src/paper_insights/application/ingestion/prepare.py:17-22 | the selection is the observations of the batch in order if they are no more than the limit, and otherwise the first `limit`, each at the page and record where it was read |
| `Preparation.PreparedPlanCarries` | src/paper_insights/application/ingestion/prepare.py:13-29 | the plan attaches every page with its own capture, payload digest, fingerprint, time, cursor and record keys, and records the selected observations at their places |
| `Preparation.Prepare` | src/paper_insights/application/ingestion/prepare.py:13-29 | discover and prepare together: the plan is valid and its observations are the first `limit` entries of distinct versions from the cursor on |
| `Preparation.SelectionIsValid` | src/paper_insights/domain/acquisition.py:299-318 | what prepare selects passes every check of the selection |
| `Preparation.PreparedPlanIsValid` | src/paper_insights/application/ingestion/prepare.py:13-29 | a valid batch and its selection make a plan that passes every check of ingestion; which records it selects is SelectionReads |
| `Preparation.DigestCovers` | src/paper_insights/domain/acquisition.py:321-341 | two prepared discoveries have equal digests exactly when source, query, page identities and payloads, and selected locators are equal: media type, next cursor and observation fields are not covered |
| `IsoTime.TextOrderIsTimeOrder` | src/paper_insights/adapters/catalog/sqlite/uow.py:62-63 | the order of UTC isoformat texts is the order of the instants, with and without microseconds |
| `IsoTime.TextSaysInstant` | src/paper_insights/adapters/catalog/sqlite/uow.py:62-63 | the text is the zero-padded date and time in UTC, with six digits of microseconds exactly if they are not zero |
| `IsoTime.NewestByText` | src/paper_insights/adapters/catalog/sqlite/readers.py:332-345 | the observation chosen by its stored text is the one chosen by its instant |
| `IsoTime.ListedIffRepairable` | src/paper_insights/adapters/catalog/sqlite/readers.py:244-265 | the runs listed by comparing text are exactly those that repair accepts by comparing instants |
| `IsoTime.ListedRunIsAccepted` | src/paper_insights/application/ingestion/repair.py:48-74 | a listed run that is still running when its repair comes is accepted |
| `CollectionRepository.Add` | src/paper_insights/adapters/catalog/sqlite/uow.py:1171-1237 | the imperative branches over stored and given notes, null or not, equal one update of the member map |
| `CollectionRepository.PutMember` | src/paper_insights/adapters/catalog/sqlite/uow.py:1184-1232 | inserts or updates exactly one member and keeps its first addition time |
| `CollectionRepository.Remove` | src/paper_insights/adapters/catalog/sqlite/uow.py:1239-1257 | removes exactly the member, and marks the unit exactly if it was there |
| `CollectionRepository.ResolvePaper` | src/paper_insights/adapters/catalog/sqlite/uow.py:1259-1293 | the imperative lookup over both identifier tables equals the specified one |
| `Collections.CommandRefines` | src/paper_insights/adapters/catalog/sqlite/uow.py:1107-1320 | every command equals one step of a plain map from collection and paper to an optional note, raises exactly when that step does, and marks the unit exactly when the plain maps changed |
| `Collections.UnitRefines` | src/paper_insights/adapters/catalog/sqlite/uow.py:1120-1320 | a committed command moves the revision by one exactly when the plain maps changed |
| `Collections.CollectionsFollowCommands` | src/paper_insights/adapters/catalog/sqlite/uow.py:1107-1320 | over every sequence of collection commands and ingestion operations from the empty catalog, the collections are what the plain map becomes |
| `Collections.PaperCountIsMembers` | src/paper_insights/adapters/catalog/sqlite/uow.py:1295-1320 | paper_count is the number of papers of the collection in the plain map |
| `CollectionAnswers.CommandStamps` | src/paper_insights/adapters/catalog/sqlite/uow.py:1120-1257 | a command moves updated_at of a collection to now exactly if its title, a note or its members changed, and never moves created_at or added_at |
| `CollectionAnswers.MemberAnswers` | src/paper_insights/adapters/catalog/sqlite/uow.py:1171-1257 | adding and removing answer the stored row and the member count; an unknown collection or paper is not found, an ambiguous identifier a conflict, and nothing else raises |
| `CollectionAnswers.CreateAnswers` | src/paper_insights/adapters/catalog/sqlite/uow.py:1120-1144 | creating answers the view of a new collection, and raises exactly for a taken slug |
| `Collections.DoiIsUniqueOrConflict` | src/paper_insights/adapters/catalog/sqlite/uow.py:1265-1282 | a DOI resolves exactly when one paper holds it in either table, is missing exactly when none does, and is a conflict exactly when two do |
| `Collections.IngestionLeavesCollections` | src/paper_insights/adapters/catalog/sqlite/uow.py:164-1104 | no ingestion operation touches a collection |
| `Bibtex.AuthorFieldSplits` | tests/citations/test_bibtex.py:109-127 | for every non-empty author list the scanner finds n - 1 separators and the pieces are the printed authors |
| `Bibtex.AuthorFieldReadsBack` | src/paper_insights/application/research/citations.py:220-232 | reading each piece gives the family and given name, or the literal name, of every author in order |
| `Bibtex.UnescapeUndoesEscape` | src/paper_insights/application/research/citations.py:216-217 | unescaping recovers the value |
| `Bibtex.EscapeIsCode` | src/paper_insights/application/research/citations.py:22-33 | escaping is a uniquely decodable code |
| `Bibtex.EscapedIsInactive` | src/paper_insights/application/research/citations.py:22-33 | no character that TeX does not read as itself is left without its escape |
| `Bibtex.GroupedExactlyWhenNeeded` | src/paper_insights/application/research/citations.py:228-232 | a name part is printed in braces exactly if it says and in any letter case, or has a comma or an active character; otherwise as it is |
| `Bibtex.CitationKeyInjective` | src/paper_insights/application/research/citations.py:300-303 | different versions have different citation keys |
| `Digests.HexSpells` | src/paper_insights/application/research/citations.py:300-303 | the hexadecimal text spells each byte with two digits, the high one first |
| `Markdown.CodeSpanReadsBack` | src/paper_insights/application/research/citations.py:259-270 | a code span reads back, by section 6.1 of CommonMark 0.31.2, exactly for non-empty values that are not white space between two spaces other than spaces alone |
| `Markdown.EscapedTextReadsBack` | src/paper_insights/application/research/citations.py:235-256 | escaped text decodes, by the backslash escapes of section 2.4 and the printed character references, to the value with its controls spelled out |
| `Markdown.EscapedTextIsNoMarkup` | src/paper_insights/application/research/citations.py:235-256 | in escaped text every character that Markdown could read as markup stands behind a backslash or begins a printed reference, and no space stands at either end |

## Left out

- SQLite, SQLAlchemy, the write-ahead log, pragmas and database locking: transactions are atomic and serial.
- HTTP, redirects, retries, Atom parsing and the normalizer: a page is a function of start and size, over a feed that does not change while it is read.
- Discovery issues, query text, `opensearch:totalResults` that disagree with the feed, and cursors that are not decimal numbers.
- FTS5 matching, ranking, excerpts, filters and the checks of search results: only which index a search read, and the revision it reports.
- Symbolic links, inode swaps, descriptor flags, `fsync` and permissions: no hostile filesystem, only steps that fail or write less than asked. Sidecar files of an index are not modelled.
- `find_orphans`, `inspect` and the directory scan of the blob store: read-only reports.
- `search_passages`, `get_passage`, `get_paper` and `get_citation_input`: queries over rows whose integrity is proved here.
- CSL-JSON, the other BibTeX and Markdown fields, URLs, and BibTeX's own brace counting: the author field is read by the escape-aware scanner of the tests.
- The command line, configuration, bootstrap, doctor, benchmarks, and the analysis, identity, federation and monitoring values.
- Artifacts other than metadata, the normalized title column, author identifiers and source settings: no modelled operation reads them.
- Markdown.CodeSpanReadsBack: the reader takes a span that is the whole text; spans inside a larger text, where other constructs may bind tighter, are not modelled.
- Publication.Builder.Publish: the lease is its revision only; that it keeps writers out is part of the protocol model in `IndexProtocol`. How SQLite lays tables out in a file is a parameter of the class.
- Discovery.Discover: a server that ignores `start` or `max_results`, or whose feed changes between two pages, is outside the statement.
- Application.ExecutePrepared: a preview that expires between two checks stops the execution before its first transaction; in the state machine of `Saga` such a stop is a crash.
- Reexecution.ExecuteJudges: an execution that nothing interrupts; what holds in every interleaving is the subject of `Verdicts` and `Repetition`.
- JsonReader.RenderReads: the reader knows no white space between tokens, `true`, `false`, fractions, exponents or surrogate escapes, none of which the printer writes.
- Markdown.EscapedTextReadsBack: how a control character is spelled out is a parameter.
