# Verified models of the writing-assistant backend

This project models the parts of the backend whose correctness rests on an argument
rather than on a single function, and proves that argument in Dafny.

* **Storage broker** (`StorageBroker`, `StorageSafety`, `StorageRuns`, `StorageLeases`,
  `StorageEffects`, `StorageProcedures`). The six stored procedures, the upload and deletion
  transactions that call them and the outbox dispatcher are atomic steps over the
  storage tables. An inductive invariant over every interleaving gives the protocol's
  guarantees, leases and delays among them to the microsecond; what each call grants,
  refuses and leaves behind is said of the tables alone; the procedures written out
  statement by statement, with savepoint and rollback, are proved to be exactly those
  steps.
* **Crash-safe upload** (`MoveRecovery`, `MoveSafety`, `MovePaths`, `MoveRace`,
  `MoveCalm`, `MoveLeases`, `MoveProcedures`).
  Writers, recovery dispatchers, the database server, user deletions and the clock interleave
  freely. The open transaction's row locks are explicit: an intent row deleted but not
  yet committed can be neither claimed nor replaced. The code of the writer and of
  the dispatcher runs against given interference: what the others do between its
  statements, which statements fail and which paths are unsafe are inputs. Its
  contracts say what holds for all of them, when it must come to its end, and what it
  leaves when nothing fails and nobody takes its files.
* **Parse attempts and activation** (`Ingestion`, `IngestionEffects`,
  `IngestionProcedures`). Generations, attempt tokens, leases, reparse, tombstones and
  the parse outbox. Interference, failing statements and parse results are inputs here
  too. Each transaction of the procedures is recorded as a step of the run, so theorems
  about runs apply to them.
* **CHECK clauses** (`CheckClause`, `CheckParsing`, `CheckGrammar`, `CheckSemantics`,
  `CheckText`, `CheckPieces`, `CheckRoundTrip`, `CheckExpression`). Lexer,
  recursive-descent parser object, grammars of both by themselves, printer, flattening,
  three-valued SQL, and the installed expression from its text.
* **Canonical JSON and snapshot digests** (`StableSort`, `Serialiser`, `JsonText`,
  `CanonicalJson`, `SnapshotDigest`, `DigestText`). `JsonText` reads JSON as RFC 8259
  defines it, in the compact form without white space.
* **Chunks, spans and offsets** (`TokenWindows`, `TokenShapes`, `Chunker`, `Sentences`,
  `EvidenceOffsets`, `LegacyParagraphs`, `ParagraphCuts`, `LegacyChunks`).
* **Grounding verification** (`VisibleText`, `VisibleComments`, `VisibleLines`,
  `VisibleCoverage`, `GroundingVerifier`, `GroundingVerdicts`, `GreedyMatching`,
  `Quantities`).
* **Context selection and export order** (`Selection`, `Relevance`, `Forest`).
* `Options`, `Bags` and `Counting` hold shared result types, lists as bags and a
  counting argument.

Where the source works step by step, the model is a method or a class whose contract
ties its result to a function, and the lemmas are about that function. A second account
of what the function computes, by positions, tables or fields and without the function,
stands beside it. Times are microseconds, UUIDs are numbers that must be unused when drawn, a hash is a function
that may be required to be injective, `localeCompare` is a total order that may tie
different strings, and character classes, structural regular expressions and
similarity scores are parameters. Where documentation and code differ, the code is followed.

Some laws one might expect are false of the code. Each has an input that shows it and
the exact condition under which the code does meet it:

* text survives the CHECK lexer exactly when no backslash stands before a quote;
* a value has one canonical text exactly when the collation tells the keys of every
  object in it apart, and an assignment one digest exactly when run states do not tie
  and evidence with tied ids has equal digests;
* equality of quantities is inclusion except for different values within the tolerance,
  chains exactly from equal values, and does not depend on the unit exactly when the
  values are close relative to the larger one;
* greedy quantity matching succeeds in every order exactly when a matching exists and
  evidence that entails a claim in common entails the same claims;
* the span offset check agrees with the other validator exactly when the span's text is
  not empty and the recorded interval is as long as the text;
* a recovery can leave an uncommitted file at its destination without an intent exactly
  when, at the claim, its writer can still rename it: its upload loop is running, has not
  moved the file, and the file is in quarantine;
* one set of candidates has one selection exactly when no round is a draw between two
  eligible items with equal scores and tied ids; in a draw the one that came first is taken.

## Model

| member | source | states |
|---|---|---|
| StorageRuns.ObjectStateIsDetermined | backend/migrations/1713410000000-CreateStorageBrokerRoutines.ts:115-390 | In every reachable database an object has exactly one PROMOTE and at most one deletion intent, and these determine its state (STAGING, AVAILABLE, DELETE_PENDING, DELETED) both ways |
| StorageRuns.StateNeverMovesBackward | backend/migrations/1713410000000-CreateStorageBrokerRoutines.ts:546-594 | Over any continuation of any run a state only moves forward, and an object with an ABORT_PROMOTION intent never becomes available and its promotion never succeeds |
| StorageRuns.RoutinesNeverTripTheSchema | backend/migrations/1713400000000-CreateStorageBrokerAuthority.ts:4-47 | Every reachable row satisfies the intent shape; claims fail only on their arguments or the epoch; a completion commits exactly when its outcome, epoch, fence and form are right and it does not promote an object being deleted, so the CHECK and the terminal trigger never fire |
| StorageRuns.FenceCountsClaims | backend/migrations/1713410000000-CreateStorageBrokerRoutines.ts:392-463 | Fence and attempt counter of every intent both equal the number of claims of it in the run |
| StorageRuns.SpentFenceIsDead | backend/migrations/1713410000000-CreateStorageBrokerRoutines.ts:465-545 | A fence that was committed under, or passed by a later claim, is refused for ever and the refusal changes nothing |
| StorageRuns.AtMostOneCommitPerFence | backend/migrations/1713410000000-CreateStorageBrokerRoutines.ts:465-641 | After a completion commits, none under the same or an older fence of that intent ever does |
| StorageRuns.SupersededHolderChangesNothing | backend/migrations/1713410000000-CreateStorageBrokerRoutines.ts:392-545 | A holder whose intent was claimed again changes nothing at any later time |
| StorageRuns.SuccessHappensOnce | backend/migrations/1713400000000-CreateStorageBrokerAuthority.ts:316-335 | A succeeded row keeps what was written, whatever follows, and no second completion of it commits |
| StorageRuns.OutboxFollowsPromotion | backend/migrations/1713410000000-CreateStorageBrokerRoutines.ts:551-575 | An outbox row is storage_pending exactly while the PROMOTE intent of its file's object has not succeeded, and publishable or published exactly when it has |
| StorageRuns.PublishableOnlyOnPromotion | backend/migrations/1713410000000-CreateStorageBrokerRoutines.ts:546-575 | The only step that makes a row publishable is the completion that takes its object from STAGING to AVAILABLE |
| StorageRuns.OnlyPromotedFilesAreParsed | backend/src/file/file-upload-outbox.dispatcher.ts:26-72 | Under any dispatching, a parse job exists only for a file and generation whose object was promoted |
| StorageRuns.ClaimFindsDueWork | backend/migrations/1713410000000-CreateStorageBrokerRoutines.ts:392-463 | A claim returns nothing exactly when nothing is due and unlocked, and otherwise an oldest due intent |
| StorageLeases.LeaseIsExclusive | backend/migrations/1713410000000-CreateStorageBrokerRoutines.ts:392-463 | After a claim with a lease of L seconds, no claim in any continuation returns the intent before L million microseconds have passed, unless the claimant completes it; from then on the first claim that finds it due and unlocked takes it |
| StorageLeases.ClaimantHoldsFence | backend/migrations/1713410000000-CreateStorageBrokerRoutines.ts:483-545 | Until then, or until it is claimed again, the fence that is held is the claimant's |
| StorageLeases.RetryWaits | backend/migrations/1713410000000-CreateStorageBrokerRoutines.ts:596-641 | A retry with a delay of D seconds is claimed by nobody for D million microseconds, and is due from then on |
| StorageLeases.OutboxLeaseIsExclusive | backend/src/file/retry-dispatcher.ts:73-118 | A claimed outbox row is its dispatcher's for sixty million microseconds unless it lets go of it, and due from then on |
| StorageEffects.RequestIsGrantedIff | backend/migrations/1713410000000-CreateStorageBrokerRoutines.ts:235-390 | A new request is granted exactly when epoch, arguments, object, authority and state of the object allow it, and leaves exactly its intent row and the state that goes with it |
| StorageEffects.RepeatIsAnsweredIff | backend/migrations/1713410000000-CreateStorageBrokerRoutines.ts:330-390 | A repeated request changes nothing and is answered with the status of its intent exactly while its authority stands |
| StorageEffects.UsedIdentityIsRefused | backend/migrations/1713410000000-CreateStorageBrokerRoutines.ts:330-390 | A different request under an id or key in use is refused |
| StorageEffects.UploadIsAcceptedIff | backend/src/file/file.service.ts:455-676 | With ids drawn afresh an upload is accepted exactly from the project's owner in the open epoch, and leaves exactly source, outbox row, object and promotion for every file |
| StorageEffects.DeletionIsAcceptedIff | backend/src/file/file.service.ts:981-1068 | A deletion succeeds exactly when file and source are there, the object is available and the user owns the project, and leaves exactly the tombstone, the pending object and the deletion intent |
| StorageEffects.WorkIsAcceptedIff | backend/migrations/1713410000000-CreateStorageBrokerRoutines.ts:392-641 | In every reachable database a completion commits exactly when the claimant reports in the right form and does not promote an object being deleted; a claim fails exactly for its arguments |
| StorageEffects.CompletionEffects | backend/migrations/1713410000000-CreateStorageBrokerRoutines.ts:546-641 | A committed completion closes its intent's row; a success moves the object on, a promotion frees the one outbox row that waited, and nothing else changes |
| StorageEffects.UploadCanBeParsed | backend/migrations/1713410000000-CreateStorageBrokerRoutines.ts:392-641 | From every reachable database an accepted upload can be promoted by one claim and one completion and its parse job enqueued by one claim of its outbox row |
| StorageSafety.StepKeepsInv | backend/migrations/1713410000000-CreateStorageBrokerRoutines.ts:235-641 | The invariant behind the run theorems is kept by every call |
| StorageProcedures.Session.Request | backend/migrations/1713410000000-CreateStorageBrokerRoutines.ts:235-390 | The request routine, statement by statement with rollback, replays or inserts exactly as the atomic step says, or changes nothing and reports its error |
| StorageProcedures.Session.Claim | backend/migrations/1713410000000-CreateStorageBrokerRoutines.ts:392-463 | The claim routine is the atomic claim of the oldest due intent, for exactly the lease it is given |
| StorageProcedures.Session.OldestDue | backend/migrations/1713410000000-CreateStorageBrokerRoutines.ts:392-463 | The scan returns the oldest claimable intent, ties by id, skipping locked rows |
| StorageProcedures.Session.IntentExists | backend/migrations/1713410000000-CreateStorageBrokerRoutines.ts:338-341 | The idempotency probe finds an intent exactly when one has this id or this key |
| StorageProcedures.Session.Complete | backend/migrations/1713410000000-CreateStorageBrokerRoutines.ts:465-641 | The completion routine moves object, outbox and intent together or rolls all back |
| StorageProcedures.Session.UploadFiles | backend/src/file/file.service.ts:455-676 | The broker upload inserts every source, outbox row and promotion or none |
| StorageProcedures.Session.DeleteFile | backend/src/file/file.service.ts:981-1068 | The broker deletion tombstones the source and requests DELETE_BLOB together or does neither |
| MoveSafety.NothingCommittedIsUnlinked | backend/src/file/file-move-intent.dispatcher.ts:32-147 | In every reachable world committed files have their outbox row and their destination file, no enabled unlink is of a committed file, and only a user's deletion ever removes one |
| MoveSafety.DeleteExcludesClaims | backend/src/file/file.service.ts:286-300 | While a writer's uncommitted delete holds an intent row, the writer owns it, no dispatcher works on the file and none can claim it |
| MoveSafety.RowsTellTheOutcome | backend/src/file/file-move-intent.dispatcher.ts:60-118 | An UNCERTAIN row exists only after its transaction's outcome is final, an ACTIVE row never beside a committed file, and the partial-state branch is never reached |
| MoveSafety.UpsertAfterOutcome | backend/src/file/file.service.ts:722-788 | An upsert that is not blocked by a row lock finds the outcome already decided |
| MoveSafety.CommitFacts | backend/src/file/file.service.ts:286-305 | At the server's commit every file of the upload is moved, registered, at its destination and owned by its writer |
| MoveSafety.StepKeepsInv | backend/src/file/retry-dispatcher.ts:73-147 | The invariant behind the recovery theorems is kept by every action of every party |
| MoveProcedures.Host.UploadFiles | backend/src/file/file.service.ts:116-453 | Against any interference, an upload that answers has committed and one that fails never commits; it answers Saved whenever no statement fails, nobody claims its files and the server does not roll back, and it fails only for one of these reasons |
| MoveProcedures.Host.MoveOne | backend/src/file/file.service.ts:212-285 | One turn of the upload loop records, moves and registers its file under renewed leases, or leaves the upload failing before any commit |
| MoveProcedures.Host.CleanUpAfterFailure | backend/src/file/file.service.ts:326-453 | The failure path rolls back, ends the upload and keeps the invariant; it comes to a clean end whenever no statement fails, and then both paths of every file are gone and no intent is the writer's any more |
| MoveProcedures.Host.Commit | backend/src/file/file.service.ts:301-325 | A heard reply means committed, a lost one is answered Unknown and left to recovery, and the answer is Saved whenever no statement fails and the server does not roll back |
| MoveProcedures.Host.CleanPath | backend/src/file/file-move-intent.dispatcher.ts:119-147 | One path is skipped if its inspection found nothing, else re-leased, inspected again and unlinked, after which it is gone; or the recovery ends there |
| MoveProcedures.Host.Recover | backend/src/file/file-move-intent.dispatcher.ts:32-147 | One claimed intent is driven to its end by every branch, with the invariant kept. It finishes whenever no statement fails, no path is unsafe and nobody takes the row; then no intent of the file is left, and both paths of an uncommitted file are gone unless at the claim the writer could still rename it. In a world nobody else touches a finished recovery leaves exactly that, and one that does not finish gives the row back |
| MoveCalm.OthersLeaveClient | backend/src/file/file.service.ts:116-330 | Nothing the others do changes a writer's own view, apart from the server's verdict |
| MoveCalm.OthersLeaveTask | backend/src/file/file-move-intent.dispatcher.ts:32-118 | Nothing the others do changes a dispatcher's place in its work |
| MoveProcedures.UndisturbedRecovery | backend/src/file/file-move-intent.dispatcher.ts:32-147 | Left alone, a recovery that owns its row comes to its end and deletes the row |
| MoveCalm.VerdictOf | backend/src/file/file.service.ts:301-325 | Once a commit is sent the server's commit lands unless it rolls back first, and committed files stay as they are unless a user deletes them |
| MoveLeases.WriterLease | backend/src/file/file.service.ts:212-285 | After a writer's record or renewal nobody can claim its file for 120 million microseconds over any run in which the intent is not given back, and from then on somebody can |
| MoveLeases.DispatcherLease | backend/src/file/retry-dispatcher.ts:73-118 | After a dispatcher's claim or renewal nobody else can claim the file for sixty million microseconds unless it is given back, and from then on somebody can |
| MoveLeases.UncertainGrace | backend/src/file/file.service.ts:740-788 | After an uncertain commit nobody can claim the file for 300 million microseconds, and from then on somebody can |
| MoveLeases.BackOffDelay | backend/src/file/file-move-intent.dispatcher.ts:149-180 | An intent that is backed off is claimed by nobody before its delay is over, and can be from then on |
| MovePaths.RunOnward | backend/src/file/file-move-intent.dispatcher.ts:119-147 | Over any run a file comes to its destination only by its own rename and never back to quarantine, and a rename that is impossible once stays so |
| MovePaths.ReachableIsGood | backend/src/file/file-move-intent.dispatcher.ts:119-147 | In every reachable world moved files have left quarantine, only moved files are at their destination, and of a committed upload only registered ones |
| MoveRace.CanBeMissedIff | backend/src/file/file-move-intent.dispatcher.ts:119-147 | From any reachable claim, some run of all parties ends the recovery and leaves the file at its destination, unregistered and without an intent, exactly when at the claim its writer can still rename it |
| MoveRace.LateRenameIsMissed | backend/src/file/file-move-intent.dispatcher.ts:119-147 | Whenever it can, a rename between the two inspections does so |
| MoveRace.PausedWriterCanBeMissed | backend/src/file/file.service.ts:212-285 | A writer that pauses for its lease between recording the intent and the rename is such a case, for every file, writer and dispatcher |
| Ingestion.OneActiveDocument | backend/src/file/structured-ingestion.service.ts:88-183 | Over any run each file has at most one active document, chunks are active with their document, and the active key names it or is null exactly when there is none |
| Ingestion.AtMostOneActivation | backend/src/file/structured-ingestion.service.ts:187-210 | In any run, at most one activation commits per file and generation, and none once the generation is done or replaced |
| Ingestion.StaleAttemptChangesNothing | backend/src/file/structured-ingestion.service.ts:46-87 | An attempt whose token was replaced, generation advanced or lease expired is refused at every later time and changes nothing |
| Ingestion.PublishedMeansEnqueued | backend/src/file/file-upload-outbox.dispatcher.ts:26-72 | A published outbox row means the job of its file and current generation was enqueued, under any takeovers and reparses |
| Ingestion.RunKeepsDocuments | backend/src/file/structured-ingestion.service.ts:88-183 | The document invariant holds along every run |
| Ingestion.RunKeepsOutbox | backend/src/file/file.service.ts:882-947 | The outbox invariant holds along every run, reparse included |
| IngestionProcedures.Database.Activate | backend/src/file/structured-ingestion.service.ts:31-185 | The activation succeeds exactly for an attempt that still holds its file with an absent or equal checksum, and then leaves the file's active document, its chunks and the source as the row IngestionEffects.ActivationEffects says; otherwise nothing changes |
| IngestionEffects.ActivationEffects | backend/src/file/structured-ingestion.service.ts:31-210 | An activation succeeds exactly with the right project, generation and token, a live lease and a checksum that is absent or equal; then the one active document has the checksum and parser activated; it has exactly the parsed chunks if no document had that file and key, otherwise those it had, all active, and no other chunk of the file is active |
| IngestionEffects.AttemptLease | backend/src/file/parse.worker.ts:87-113 | A worker takes a file exactly when it is free; while its token stays, nobody can take the file and it may activate for 180 million microseconds, and from then on the other way round |
| IngestionEffects.FailureFrees | backend/src/file/parse.worker.ts:138-158 | Before that only the attempt's own failure frees the file |
| IngestionEffects.DispatcherLease | backend/src/file/retry-dispatcher.ts:73-118 | A dispatcher's claim or renewal keeps its outbox row for sixty million microseconds, and while it is the owner's the row is due again exactly from then on |
| IngestionEffects.UploadIsFresh | backend/src/file/file.service.ts:455-676 | An upload is a first generation that waits to be parsed |
| IngestionEffects.ReparseIsFresh | backend/src/file/file.service.ts:893-942 | A reparse is a next generation that waits to be parsed, with what was parsed before still active |
| IngestionEffects.TombstoneClears | backend/src/file/file.service.ts:1016-1042 | A deletion leaves nothing of the file active and no attempt holding it |
| IngestionEffects.FreshCanBeParsed | backend/src/file/parse.worker.ts:48-158 | From every state that runs reach, a fresh generation can be carried through to an active document with its chunks |
| IngestionProcedures.Database.CompleteAttempt | backend/src/file/structured-ingestion.service.ts:187-210 | The final update touches one row exactly when the attempt still holds the file |
| IngestionProcedures.Database.TakeAttempt | backend/src/file/parse.worker.ts:87-113 | The conditional update takes the attempt exactly when the row is claimable and reports it |
| IngestionProcedures.Database.HandleParse | backend/src/file/parse.worker.ts:48-158 | A worker run among others is a run of the model, and one that reports success made the only activation of its generation since it started; it concludes whenever the file is free, no statement fails and nobody touches the source |
| IngestionProcedures.Database.RecordFailure | backend/src/file/parse.worker.ts:138-158 | Only the attempt's own token can record its failure |
| IngestionProcedures.Database.ReparseFile | backend/src/file/file.service.ts:893-942 | Reparse advances the generation, clears the attempt and restarts the outbox row, and tells exactly when there was such a source |
| IngestionProcedures.Database.Tombstone | backend/src/file/file.service.ts:1016-1042 | The tombstone clears key and attempt and deactivates the file's documents and chunks, and tells exactly when there was a source to delete |
| IngestionProcedures.Database.PublishOne | backend/src/file/file-upload-outbox.dispatcher.ts:32-72 | A dispatcher that publishes has enqueued the job of its event even if it lost its lease meanwhile; one that holds its row publishes it whenever no statement fails and nobody takes the row, and otherwise gives it back |
| CheckClause.ParsedIsCanonical | backend/migrations/support/atomic-operation-schema-contract.ts:344-461 | Every tree the parser returns joins at least two operands per connective, none of the same kind; without flattening, at least two |
| CheckClause.PrintedClauseReadsBack | backend/migrations/support/atomic-operation-schema-contract.ts:344-461 | Printing any canonical tree and parsing the tokens gives the tree back |
| CheckParsing.CheckParser.Parse | backend/migrations/support/atomic-operation-schema-contract.ts:349-352 | The parser object accepts exactly the token lists the grammar derives, with the grammar's tree |
| CheckParsing.CheckParser.ParseOr | backend/migrations/support/atomic-operation-schema-contract.ts:354-364 | The OR loop agrees with the grammar and leaves the index where it ends |
| CheckParsing.CheckParser.ParseAnd | backend/migrations/support/atomic-operation-schema-contract.ts:366-376 | The AND loop agrees with the grammar and leaves the index where it ends |
| CheckParsing.CheckParser.ParsePredicate | backend/migrations/support/atomic-operation-schema-contract.ts:378-400 | Equality and IS tests agree with the grammar, failures included |
| CheckParsing.CheckParser.ParsePrimary | backend/migrations/support/atomic-operation-schema-contract.ts:402-432 | Parentheses, calls and values agree with the grammar, failures included |
| CheckGrammar.ParsesIff | backend/migrations/support/atomic-operation-schema-contract.ts:344-461 | Tokens parse to a tree exactly when they are, every one of them, the spelling of a syntax tree of the grammar that means that tree |
| CheckGrammar.OneMeaning | backend/migrations/support/atomic-operation-schema-contract.ts:344-461 | The grammar is unambiguous up to meaning |
| CheckParsing.CombineLogical | backend/migrations/support/atomic-operation-schema-contract.ts:456-461 | The merging loop computes the flattening of its operands |
| CheckSemantics.ParserFlattens | backend/migrations/support/atomic-operation-schema-contract.ts:456-461 | The tree the code compares is the flattening of the clause as written, and one parses exactly when the other does |
| CheckSemantics.FlatteningKeepsValue | backend/migrations/support/atomic-operation-schema-contract.ts:456-461 | Flattening keeps the three-valued SQL value of every clause on every row |
| CheckSemantics.AcceptedClauseIsTheScope | backend/migrations/support/atomic-operation-schema-contract.ts:222-229 | An accepted clause is 1 exactly on the rows in scope and 0 on all others, never NULL |
| CheckSemantics.ExpressionIsAccepted | backend/migrations/support/atomic-operation-schema-contract.ts:25-42 | The tokens of the migration's own expression parse to the expected tree |
| CheckExpression.ExpressionTextIsAccepted | backend/migrations/support/atomic-operation-schema-contract.ts:25-42 | The text of the expression, line breaks, capitals and introducers included, lexes to those tokens and is accepted |
| CheckExpression.PiecesLex | backend/migrations/support/atomic-operation-schema-contract.ts:257-342 | Text made of white space, symbols, words, numbers and introduced strings lexes to their tokens, whatever its layout |
| CheckText.Tokenize | backend/migrations/support/atomic-operation-schema-contract.ts:257-342 | The lexing loop computes the token sequence of the text or fails where the lexical grammar does |
| CheckPieces.LexesIff | backend/migrations/support/atomic-operation-schema-contract.ts:257-342 | A text lexes to tokens exactly when it is pieces end to end (white space, signs, whole words and numbers, quoted names, quoted texts with or without introducer) that mean those tokens |
| CheckPieces.EscapesAreReplaced | backend/migrations/support/atomic-operation-schema-contract.ts:248-250 | Every backslash before a quote is dropped, wherever it stands |
| CheckRoundTrip.UnescapeCounts | backend/migrations/support/atomic-operation-schema-contract.ts:248-250 | Text without one is left as it is |
| CheckText.IsAtomicScopeCheckClause | backend/migrations/support/atomic-operation-schema-contract.ts:222-255 | A text is accepted exactly when its canonical tree is the expected one, and then its tokens are an accepted clause |
| CheckRoundTrip.TextReadsBackIff | backend/migrations/support/atomic-operation-schema-contract.ts:248-342 | Printed tokens lex back through the code's rewriting exactly when the text has no backslash before a quote |
| CheckRoundTrip.ClauseTextReadsBackIff | backend/migrations/support/atomic-operation-schema-contract.ts:248-255 | A canonical tree survives text, lexer and parser exactly when its text has no backslash before a quote |
| CheckRoundTrip.TrailingBackslashIsLost | backend/migrations/support/atomic-operation-schema-contract.ts:248-255 | A string constant that is one backslash does not survive |
| Serialiser.StableJsonWritesCanon | backend/src/citation/sql-grounding-evidence.store.ts:1258-1271 | The serialiser is sorting the keys and writing in order |
| JsonText.WriteUndone | backend/src/citation/sql-grounding-evidence.store.ts:1258-1271 | Written text can be read in only one way, whatever follows it: equal texts mean equal values and equal remainders |
| JsonText.WriteIsRead | backend/src/citation/sql-grounding-evidence.store.ts:1258-1271 | An independent JSON reader reads what is written, escapes and numbers included, as the value and leaves what follows |
| CanonicalJson.TextReadsBack | backend/src/citation/sql-grounding-evidence.store.ts:1258-1271 | The serialiser's text is JSON: it reads as a value with the same meaning whose keys ascend at every depth |
| CanonicalJson.EqualStringsMeanTheSame | backend/src/citation/sql-grounding-evidence.store.ts:1258-1271 | Equal strings mean equal values up to key order, whatever the collation |
| CanonicalJson.StringsEqualIffSameMeaning | backend/src/citation/sql-grounding-evidence.store.ts:1258-1271 | When the collation tells the keys of each object of one value apart, its string equals another's exactly when the values are equal up to key order |
| CanonicalJson.CanonicalIffKeysApart | backend/src/citation/sql-grounding-evidence.store.ts:1258-1271 | A value has one string whatever the order of its keys exactly when the collation tells the keys of every object in it, at any depth, apart |
| CanonicalJson.TiedKeysShowTheirOrder | backend/src/citation/sql-grounding-evidence.store.ts:1262-1266 | An object with two tied keys has a reordering with the same meaning that sorts differently |
| StableSort.SortIgnoresOrder | backend/src/citation/sql-grounding-evidence.store.ts:1230-1256 | Without ties the sorted list depends on the elements alone |
| StableSort.OrderIgnoredIff | backend/src/citation/sql-grounding-evidence.store.ts:1230-1256 | Sorting forgets the incoming order exactly when it ties no different elements |
| StableSort.SortUndone | backend/src/citation/sql-grounding-evidence.store.ts:1262-1266 | Lists with equal key sequences and equal sorted lists are equal |
| StableSort.TiedKeepOrder | backend/src/citation/sql-grounding-evidence.store.ts:1230-1256 | Of two elements that tie the one that came first is sorted first |
| SnapshotDigest.PermutingKeepsDigest | backend/src/citation/sql-grounding-evidence.store.ts:1220-1248 | Permuting run references, run states, evidence ids and evidence leaves the assignment digest unchanged |
| SnapshotDigest.DigestIgnoresOrderIff | backend/src/citation/sql-grounding-evidence.store.ts:1220-1248 | With a collision-free hash every permutation has the same digest exactly when no two run states have tied runs and evidence with tied ids has equal digests |
| SnapshotDigest.EqualEvidenceDigests | backend/src/citation/sql-grounding-evidence.store.ts:1194-1218 | With a collision-free hash equal evidence digests mean equal evidence in all nineteen fields |
| SnapshotDigest.EqualDigestsMeanEqualSnapshots | backend/src/citation/sql-grounding-evidence.store.ts:1220-1248 | With a collision-free hash equal assignment digests mean the same contract, run, state, strictness, references, states and ids, and the same evidence field by field |
| DigestText.EvidenceDigestIsOf | backend/src/citation/sql-grounding-evidence.store.ts:1194-1218 | The hashed text, read as JSON, has exactly the nineteen fields, each with its own value |
| DigestText.AssignmentDigestIsOf | backend/src/citation/sql-grounding-evidence.store.ts:1220-1248 | The hashed text, read as JSON, has exactly the eight fields, its lists ascending and complete, the evidence as digests in the order of ids |
| TokenWindows.TokenizeStable | backend/src/chunk/chunker.ts:322-331 | The scanning loop finds exactly the tokens of the mixed-script grammar |
| TokenShapes.TokensAre | backend/src/chunk/chunker.ts:322-331 | Each token is a Han character, a mark or a word that cannot be longer |
| TokenShapes.TokensCoverText | backend/src/chunk/chunker.ts:322-331 | Every character that is not blank is in a token |
| TokenShapes.TokensTokenize | backend/src/chunk/chunker.ts:322-331 | The tokens are a tokenization: such tokens in order, covering the text |
| TokenShapes.TokensAreUnique | backend/src/chunk/chunker.ts:322-331 | No other list of spans is one |
| TokenWindows.SliceKeepsTokens | backend/src/chunk/chunker.ts:322-356 | Re-tokenizing the text between two tokens yields exactly the tokens between them |
| TokenWindows.TrimKeepsTokens | backend/src/chunk/chunker.ts:256-263 | Trimming loses no token and only moves the rest |
| TokenWindows.TrimOccursAtLead | backend/src/chunk/chunker.ts:259-262 | indexOf of trimmed text is the width of the leading white space |
| TokenWindows.WindowsAreSound | backend/src/chunk/chunker.ts:333-356 | Windows start at 0, end at the last token, hold at most the limit, start strictly later each time and share exactly the overlap (64 for 512) |
| TokenWindows.WindowsCover | backend/src/chunk/chunker.ts:333-356 | Every token is in some window |
| Chunker.SplitIntoTokenSpans | backend/src/chunk/chunker.ts:333-356 | The loop returns the text spans of exactly those windows, or the whole text when it fits |
| Chunker.ChildrenOfBlock | backend/src/chunk/chunker.ts:249-300 | Each child's text is the block's at its offsets, its tokens are exactly its window's, token_count is true and at most 512, and the recorded overlap is the true one |
| Chunker.ChildrenCoverTheBlock | backend/src/chunk/chunker.ts:249-300 | The children hold every token of the block, start strictly later each time and each repeats exactly 64 tokens |
| Sentences.SentenceSegments | backend/src/retrieval/context-builder.ts:180-194 | The loop computes the trimmed sentences and their starts |
| Sentences.SegmentsAreSlices | backend/src/retrieval/context-builder.ts:180-194 | Every segment is nonempty and is the text where it says it starts |
| Sentences.SegmentsIff | backend/src/retrieval/context-builder.ts:180-194 | A segment is exactly a trimmed nonempty stretch from one stop or the start to the next stop or the end |
| EvidenceOffsets.ExtractExactSpan | backend/src/retrieval/context-builder.ts:157-177 | The span is the best supported segment, the earliest among equals, at its document offsets, or the whole content |
| EvidenceOffsets.ChosenSpanPasses | backend/src/citation/grounding-verifier.ts:400-466 | The chosen span of nonempty content passes validateEvidence and, with offsets, validateEvidenceOffsets |
| EvidenceOffsets.SpanIsDocumentText | backend/src/chunk/chunker.ts:257-297 | For a child of a block that is where its offsets say, the chosen span is the document's text at the recorded offsets |
| EvidenceOffsets.AcceptedIffExact | backend/src/citation/grounding-verifier.ts:400-466 | validateEvidence accepts with given chunk offsets exactly when project and runs belong, the text occurs there and every document offset agrees |
| EvidenceOffsets.ValidatorsDifferOnLength | backend/src/citation/sql-grounding-evidence.store.ts:1065-1087 | Evidence with offsets is accepted by validateEvidence exactly when it belongs to the request, the offset check passes, its text is not empty and the recorded interval is as long as the text |
| EvidenceOffsets.OffsetCheckAloneIsLax | backend/src/citation/sql-grounding-evidence.store.ts:1065-1087 | An empty span of empty content, and one whose end lies beyond the content, pass the offset check and fail the other |
| EvidenceOffsets.ChosenSpanIsRefusedIffEmpty | backend/src/retrieval/context-builder.ts:157-177 | The span chosen from content with offsets always passes the offset check, and validateEvidence refuses it exactly when the content is empty |
| VisibleText.ParseVisibleOutput | backend/src/citation/grounding-verifier.ts:272-293 | The match loop yields the text without comments and each marker with its place in that text |
| VisibleComments.OutputIsCut | backend/src/citation/grounding-verifier.ts:272-293 | Reading an output cuts out exactly its comments and keeps the rest, markers standing where theirs were, and fails exactly if a claim among them does not parse |
| VisibleText.ExtractVisibleStatements | backend/src/citation/grounding-verifier.ts:325-398 | The line loop, with fences, structure and table headers, yields the statements of the lines that count |
| VisibleLines.CountsIff | backend/src/citation/grounding-verifier.ts:325-398 | A line counts exactly when it is not blank and opens and closes no fence, and stands inside an open fence or else is neither structural nor a table header; a fence is open behind an opening mark with no later matching closing mark |
| VisibleLines.FenceMarkIff | backend/src/citation/grounding-verifier.ts:335-352 | A fence mark is three or more of the same mark, all there are |
| VisibleLines.LinesIff | backend/src/citation/grounding-verifier.ts:325-332 | The lines are exactly the longest stretches without a line break, at their places |
| VisibleLines.PrefixIff | backend/src/citation/grounding-verifier.ts:356-359 | What is skipped before a line's text is exactly a list mark or a number with its mark, and the white space behind it |
| VisibleLines.StatementsIff | backend/src/citation/grounding-verifier.ts:325-379 | A statement is exactly a sentence of a line that counts, at its place |
| VisibleText.StatementsAreTheText | backend/src/citation/grounding-verifier.ts:325-379 | Statements ascend without overlap and each is the visible text at its interval |
| VisibleLines.VisibleTextIsAccounted | backend/src/citation/grounding-verifier.ts:325-379 | No visible character escapes: in a line that counts by its position, each is in a statement, the list prefix, a stop mark or a structural sentence |
| GroundingVerifier.VerifiedClaimsAreTheStatements | backend/src/citation/grounding-verifier.ts:144-247 | Whenever verification returns, claims are exactly the visible statements, in disjoint ascending intervals; links are assigned and valid; every marker is answered; verdicts are UNVERIFIABLE with score 0; ALLOW only when not strict and nothing is visible |
| GroundingVerifier.Verify | backend/src/citation/grounding-verifier.ts:144-247 | The loops over markers and statements, the sort and the capping compute that result or the first problem |
| GroundingVerdicts.VerifiesIff | backend/src/citation/grounding-verifier.ts:144-247 | Verification returns exactly when every marker parses and is the first at a statement that repeats its claim, with assigned and valid evidence; then every statement is a claim with the links of its marker, unverifiable with score 0, and the decision is by strictness, attempts and whether there are claims |
| GroundingVerdicts.AdjacentIff | backend/src/citation/grounding-verifier.ts:155-173 | A statement is adjacent to a marker exactly when it ends before it and only blanks are between |
| GroundingVerdicts.LinkIff | backend/src/citation/grounding-verifier.ts:174-180 | A link is exactly to what was assigned under its id last, if that is valid, with its place in the chunk |
| GroundingVerifier.SortRestoresOrder | backend/src/citation/grounding-verifier.ts:203-216 | Sorting the drafts by start restores statement order in whatever order they were made |
| Quantities.EntailmentIsInclusion | backend/src/citation/grounding-verifier.ts:878-920 | An ordered claim is entailed by evidence that is not approximate exactly when dimensions agree and every value the evidence allows is allowed by the claim |
| Quantities.ScalingKeepsEntailment | backend/src/citation/grounding-verifier.ts:738-790 | Scaling both sides by a positive factor keeps entailment of ordered claims |
| Quantities.UnitsDoNotMatter | backend/src/citation/grounding-verifier.ts:738-790 | Stated in any one unit, entailment of ordered claims is that of the bare numbers |
| Quantities.UnitsRelate | backend/src/citation/grounding-verifier.ts:738-790 | 1000 W make a kW, 60 seconds a minute, and so on: a value in the larger unit is the same quantity as so many times it in the smaller |
| Quantities.UnitsCompare | backend/src/citation/grounding-verifier.ts:738-790 | Between two such units entailment of ordered claims compares the amounts in the smaller |
| Quantities.KindsAreApart | backend/src/citation/grounding-verifier.ts:738-790 | Quantities of different kinds never entail each other |
| Quantities.ApproximateIff | backend/src/citation/grounding-verifier.ts:878-920 | Approximate evidence entails only approximate claims, and those are entailed exactly as equal ones by equal or approximate evidence |
| Quantities.EqualityIsInclusionIff | backend/src/citation/grounding-verifier.ts:869-887 | An equal claim is entailed exactly by inclusion of allowed values, except by a different equal value within the tolerance |
| Quantities.EqualityChainsIff | backend/src/citation/grounding-verifier.ts:869-887 | A value passes on everything an equal value it entails goes on to entail exactly when the two values are the same |
| Quantities.UnitsMatterIff | backend/src/citation/grounding-verifier.ts:738-790 | Entailment of any claim is the same in every unit, unless the tolerance compares two values that differ by more than that fraction of the larger |
| Quantities.EqualityIsTolerant | backend/src/citation/grounding-verifier.ts:869-887 | Inputs for each: an entailed value that is not allowed, a chain that breaks, a pair that a smaller unit tells apart |
| Quantities.PropositionQuantitiesEntail | backend/src/citation/grounding-verifier.ts:1017-1031 | The loop computes the greedy assignment of evidence to claims |
| Quantities.ListMatches | backend/src/citation/grounding-verifier.ts:1017-1031 | Greedy success yields a one-to-one matching of entailments |
| Quantities.ListEntailsIff | backend/src/citation/grounding-verifier.ts:1017-1031 | The check says yes in every order of both lists exactly when a matching exists and evidence that entails a claim in common entails the same claims |
| GreedyMatching.GreedyFinds | backend/src/citation/grounding-verifier.ts:1017-1031 | Then the check finds a matching in the order given, by exchanging what it takes for what the matching gave |
| Quantities.GreedyCanMiss | backend/src/citation/grounding-verifier.ts:1017-1031 | Otherwise greedy can fail although a matching exists |
| Selection.BuildEvidenceContext | backend/src/retrieval/context-builder.ts:14-82 | Every round takes a best eligible item, the run stops only when full or when nothing fits, and the token sum is exact |
| Relevance.LessAlikeIsTaken | backend/src/retrieval/context-builder.ts:56-82 | Of equally relevant items one least like the selected is taken, if lambda is below 1 |
| Relevance.MoreRelevantIsTaken | backend/src/retrieval/context-builder.ts:56-82 | Of items equally like the selected a most relevant one is taken if lambda is positive, and so the first |
| Relevance.GainIsOutweighed | backend/src/retrieval/context-builder.ts:56-82 | Whatever an item left behind has in relevance over the item taken, times lambda, is outweighed by what it has in likeness, times one minus lambda; if they balance the ids decide |
| Relevance.RedundancyIsGreatest | backend/src/retrieval/context-builder.ts:56-82 | Likeness to the selected is the greatest likeness to any of them |
| Relevance.RerankDecides | backend/src/retrieval/context-builder.ts:56-82 | Without a query or a fitting embedding an item stands by its rerank score |
| Relevance.SizeIs | backend/src/retrieval/context-builder.ts:14-55 | An item's size is its token count, or half its length rounded up, and at least one |
| Selection.RunKeepsCaps | backend/src/retrieval/context-builder.ts:14-55 | A run respects top_k, the token budget and the per-source cap, and chooses nothing twice |
| Selection.RunIsUnique | backend/src/retrieval/context-builder.ts:23-43 | Without draws one candidate set has one such run |
| Selection.SelectionIgnoresOrder | backend/src/retrieval/context-builder.ts:23-43 | Without draws reordering the candidates does not change what is selected |
| Selection.OneRunIffNoDraw | backend/src/retrieval/context-builder.ts:23-43 | A candidate set has one run exactly when no round that can be reached has two different best items |
| Selection.ApartMeansNoDraw | backend/src/retrieval/context-builder.ts:23-43 | There is no draw when the collation tells the candidates' ids apart |
| Selection.FirstComeFirst | backend/src/retrieval/context-builder.ts:23-43 | An item preferred to or level with all others is sorted first if it came first |
| Selection.TiedPairShows | backend/src/retrieval/context-builder.ts:23-43 | Two items with equal scores and tied ids are a draw, and whichever came first is taken |
| Forest.EmitsTheReachable | backend/src/export/export.worker.ts:199-210 | For unique ids, cycles and orphans included, exactly the nodes whose parents lead to a root are emitted, once each |
| Forest.EmitsInPreorder | backend/src/export/export.worker.ts:199-210 | Each node is followed at once by all its descendants, never preceded by one, and siblings come by order_index, then in the order listed |
| Forest.PathIsShort | backend/src/export/export.worker.ts:199-223 | No path from a root is longer than the node list, which is why both recursions end |
| Forest.Flattening.AppendSubtree | backend/src/export/export.worker.ts:200-209 | The recursion terminates and appends exactly the walk below its node |
| Forest.Flattening.ComputeDepth | backend/src/export/export.worker.ts:213-223 | The recursion terminates, records every node below, and every recorded depth is the length of the node's path |
| Forest.FlattenDirectory | backend/src/export/export.worker.ts:199-223 | The emitted nodes are the preorder walk, depths exist exactly for reachable nodes, 1 at a root and one more than the parent's elsewhere |
| LegacyParagraphs.ParagraphsFit | backend/src/chunk/chunker.ts:42-101 | Whatever the text, every paragraph has 1 to 800 characters and no blank ends |
| LegacyParagraphs.ParagraphsKeepInk | backend/src/chunk/chunker.ts:42-101 | Splitting at blank lines, after sentence marks and by length, trimming and packing lose only blanks: the paragraphs hold the text's other characters, in order and once |
| LegacyParagraphs.PackSentences | backend/src/chunk/chunker.ts:53-88 | The sentence loop computes the packing into segments |
| ParagraphCuts.ParagraphPartsAre | backend/src/chunk/chunker.ts:42-51 | The parts are cut at exactly the longest runs of two or more newlines |
| ParagraphCuts.SentencePartsAre | backend/src/chunk/chunker.ts:58-61 | The sentences are cut behind every sentence mark, with the white space there |
| ParagraphCuts.TrimAllKeeps | backend/src/chunk/chunker.ts:42-51 | Exactly the parts that are not blank are kept, in order and trimmed |
| ParagraphCuts.PackIs | backend/src/chunk/chunker.ts:67-82 | Sentences are joined by spaces into consecutive groups, each cut exactly where the next would make it longer than 800 characters |
| ParagraphCuts.SlicesAre | backend/src/chunk/chunker.ts:90-101 | Slice k of an oversized text begins at character 800 k, and they end with the text |
| LegacyChunks.ChunkDocument | backend/src/chunk/chunker.ts:107-175 | Each section adds its paragraphs in consecutive groups, cut exactly where a group of 300 characters or more would pass 800, each behind the trimmed last 120 characters of the one before; a tail below 300 joins a last chunk of the same title that it fits in. Every chunk has at most 1101 characters, chunk_index is its position, and every paragraph survives whole under its title; without any, the plain text is cut into windows |
| LegacyChunks.ChunkPlain | backend/src/chunk/chunker.ts:158-173 | Text without sections is cut into the windows of 800 characters every 680, trimmed and numbered, just enough of them to reach its end |
| LegacyChunks.WindowsCoverText | backend/src/chunk/chunker.ts:158-173 | Every character is in one of those windows |
| LegacyChunks.WindowsOverlap | backend/src/chunk/chunker.ts:158-173 | Each window begins with the last 120 characters of the one before |

## Left out

- Connections, isolation levels beyond row locks, deadlocks, named locks, quota checks and cleanup records.
- Broker readiness checks, storage keys, the file formats of uploads, and index activation staging in the activation transaction.
- NULL arguments of the stored procedures other than quarantine key, result code, error and retry delay; overflow of their integer columns.
- The broker database starts empty: outbox rows of the older upload path do not mix with broker rows. The request routines and the caller's transaction (which rolls them back together) are one atomic step.
- A dispatcher's claimed batch is a set of independent claims; its size limit and order are not modelled. The delay after a failed publication is any.
- The older deletion of a file in two statements is one step of the move model, and no step of the ingestion model.
- Activities of several uploads by one process are separate writers; retries of a cleanup write are not modelled.
- Text is a sequence of characters, not of UTF-16 code units; lone surrogates and letter-case rules beyond ASCII are not modelled. Comparing JSON texts of CHECK trees is comparing the trees.
- `undefined` inside serialised values, and numbers apart from their decimal text (negative zero is zero).
- Claim ids, normalized claim text and deterministic support, which the verification result overrides; `parseClaimPayload` and the structural regular expressions are parameters.
- The extraction of quantities and propositions from sentences, rounding to fifteen digits, and floating point in scores and quantities.
- Selection.BuildEvidenceContext: candidates have distinct chunk ids, as the removal by id assumes.
- Forest.FlattenDirectory: node ids are unique; with repeated ids the recursion need not end.
- Parent chunks, headings and chunk keys of structured documents.
- Database access around the digests: assigning, replacing, loading and saving assignments.
- Prompt text, retrieval, ranking fusion, citations labels and the other services.
