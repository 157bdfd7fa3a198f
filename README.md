# mod-batch-print, modelled in Dafny

mod-batch-print is a Vert.x service. It stores one table of print entries per tenant. A print entry has an id, a created timestamp, a type (SINGLE or BATCH), an optional sorting field and a content string holding a PDF as hex. The service offers:

- create, read, update and delete by id;
- a listing that turns CQL into SQL and streams the matching entries as JSON, ending with a `resultInfo` footer;
- `saveMail`, which renders an HTML mail body to PDF and stores it as a SINGLE entry;
- batch creation, which merges the SINGLE entries of the last day into one BATCH entry.

The model follows the source's own structure:

- `Entries` and `Failures`: the records (`PrintEntry`, `Message`, a table row), the timestamp conversions, and the exception kinds that cross layers (NotFoundException, EntryException, a Postgres error, anything else).
- `Query`: `createSqlQuery`. The CQL parser is a parameter.
- `Storage`: `PrintStorage`, a class over a `map<Uuid, Row>`.
  - INSERT and UPDATE follow the table's constraints, as Postgres reports them: a null NOT NULL column is SQLSTATE 23502 and a duplicate id is 23505.
  - `getEntryWoCheck` reads the row from that map. The rows that the CQL-driven SELECT of `getEntriesByQuery` returns are an input.
- `Streaming`: `getEntries`, `streamResult` and `resultFooter`, over an HTTP `Response` class (`Http`) and a `Connection` that records prepare, begin, execute, commit and close.
- `Json`: the entry and footer JSON, null fields left out.
- `Pdf`: the guards and string preparation of `createPdfFile`, and the source selection of `combinePdfFiles`. The renderer, hex decoder and merger are parameters.
- `Batch`: `BatchCreationService.process`.
- `Service`: the `PrintService` handlers and `commonError`.
- `Text`: string helpers, namely Java's `isBlank`, integer printing and reading back, and comma joining.

The following are inputs:

- the clock, as integer seconds, and the JVM zone offset;
- the random UUID;
- the database's answers to the CQL-driven listing SELECT and to COUNT;
- the JSON, hex, PDF and CQL libraries.

## Model

| member | source | states |
|---|---|---|
| Entries.ToLocalDateTime | src/main/java/org/folio/print/server/storage/PrintStorage.java:108-111 | null stays null; otherwise the result, read at UTC, is the same instant |
| Entries.FromRow | src/main/java/org/folio/print/server/storage/PrintStorage.java:76-84 | every column is copied; created is the stored timestamp placed at offset zero |
| Entries.ToRow | src/main/java/org/folio/print/server/storage/PrintStorage.java:98-99 | the bound tuple carries id, type, sorting field and content unchanged, and created converted to UTC |
| Entries.RowRoundTrip | src/main/java/org/folio/print/server/storage/PrintStorage.java:76-111 | writing an entry and reading it back keeps id, type, sorting field, content and the created instant; the offset becomes zero |
| Entries.RowRoundTripUtc | src/main/java/org/folio/print/server/storage/PrintStorage.java:76-111 | an entry already at UTC reads back identical |
| Entries.EntriesOf | src/main/java/org/folio/print/server/storage/PrintStorage.java:292-296 | one entry per row, the i-th entry read from the i-th row |
| Failures.Failure.GetMessage | src/main/java/org/folio/print/server/service/PrintService.java:63-68 | NotFoundException has no message; the other kinds carry theirs |
| Text.IntToString | src/main/java/org/folio/print/server/storage/PrintStorage.java:313-314 | Java's decimal rendering of an int: a minus sign exactly for negatives, then digits |
| Text.ParseNatToString | src/main/java/org/folio/print/server/storage/PrintStorage.java:313-314 | reading back the printed digits of a number gives the number |
| Text.SplitTrailingIntToString | src/main/java/org/folio/print/server/storage/PrintStorage.java:313-314 | an int printed after a space is recovered, with the text before it, from the end of a string |
| Text.JoinConcat | src/main/java/org/folio/print/server/storage/PrintStorage.java:230-238 | joining two non-empty lists puts exactly one comma between them |
| Text.IsBlank | src/main/java/org/folio/print/server/service/PdfService.java:30 | Java's isBlank, as tested at line 30 and again per entry at line 59: the empty text is blank, and a non-empty text is blank exactly when its first character is white space and the rest is blank |
| Query.SqlOf | src/main/java/org/folio/print/server/storage/PrintStorage.java:309-314 | FROM is the table and the where clause ("1 = 1" when absent); the listing query begins with SELECT * FROM that fragment and continues with ORDER BY and the sort clause when there is one, otherwise directly with LIMIT |
| Query.PagingReadsBack | src/main/java/org/folio/print/server/storage/PrintStorage.java:312-314 | every listing query carries its limit and offset, which read back exactly whatever the where and order text |
| Query.CreateSqlQuery | src/main/java/org/folio/print/server/storage/PrintStorage.java:301-318 | it fails exactly when the CQL parse fails, with the parser's error; otherwise it gives the SQL for the parsed query over the four whitelisted fields |
| Query.CountQuery | src/main/java/org/folio/print/server/storage/PrintStorage.java:208 | the count query is SELECT COUNT(*) FROM followed by exactly the listing's FROM ... WHERE fragment, with no ORDER BY, LIMIT or OFFSET |
| Query.MissingWhereMatchesAll | src/main/java/org/folio/print/server/storage/PrintStorage.java:309-310 | a query with no where clause gives "WHERE 1 = 1" |
| Query.OrderByOnlyWithSort | src/main/java/org/folio/print/server/storage/PrintStorage.java:307-312 | ORDER BY appears exactly when the parser returned a sort clause |
| Query.CountQueryIgnoresPaging | src/main/java/org/folio/print/server/storage/PrintStorage.java:208-209 | the count query is the same for every page and sort of one filter, and shares the listing's FROM fragment |
| Query.ReadPagingOfSuffix | src/main/java/org/folio/print/server/storage/PrintStorage.java:311-313 | a text ending in " LIMIT l OFFSET o" reads back l and o |
| Storage.PgErrorTextNamesState | src/main/java/org/folio/print/server/storage/PrintStorage.java:186-187 | a Postgres error message contains its SQLSTATE in parentheses |
| Storage.PgErrorTextUniqueOnlyFor | src/main/java/org/folio/print/server/storage/PrintStorage.java:186-187 | the "(23505)" test matches exactly the unique-violation state |
| Storage.CreateTableStatement | src/main/java/org/folio/print/server/storage/PrintStorage.java:64-74 | an idempotent CREATE TABLE IF NOT EXISTS of the tenant's table with the column list: id as primary key, created, type and content NOT NULL, sorting_field nullable |
| Storage.InsertResult | src/main/java/org/folio/print/server/storage/PrintStorage.java:92-106 | the INSERT writes one row exactly when the NOT NULL columns are set and the id is new; a null required column is reported with SQLSTATE 23502 and a duplicate id with 23505 |
| Storage.UpdateResult | src/main/java/org/folio/print/server/storage/PrintStorage.java:171-194 | the UPDATE matches no row exactly when the id is null or not stored, changes one row exactly when it is stored and the NOT NULL columns are set, and otherwise reports SQLSTATE 23502 |
| Storage.CreateOutcome | src/main/java/org/folio/print/server/storage/PrintStorage.java:100-105 | zero rows gives EntryException "Failed to create"; a database error passes through; otherwise success |
| Storage.UpdateOutcome | src/main/java/org/folio/print/server/storage/PrintStorage.java:179-193 | NotFound exactly for zero rows or a message containing "(23505)"; success exactly when a row changed; other database errors pass through |
| Storage.DeleteOutcome | src/main/java/org/folio/print/server/storage/PrintStorage.java:156-161 | NotFound exactly for zero rows; success exactly when a row went |
| Storage.UniqueViolationOnUpdateIsNotFound | src/main/java/org/folio/print/server/storage/PrintStorage.java:185-189 | a unique violation on update becomes NotFoundException |
| Storage.DuplicateCreateIsGenericFailure | src/main/java/org/folio/print/server/storage/PrintStorage.java:92-106 | creating an existing id fails with the database's unique violation, neither NotFound nor EntryException |
| Storage.NullColumnOnUpdateIsNotNotFound | src/main/java/org/folio/print/server/storage/PrintStorage.java:171-194 | an update that leaves a NOT NULL column null fails with the not-null violation, not NotFound |
| Storage.PrintStorage.constructor | src/main/java/org/folio/print/server/storage/PrintStorage.java:54-57 | the table is the tenant schema's "printing" |
| Storage.PrintStorage.Init | src/main/java/org/folio/print/server/storage/PrintStorage.java:64-74 | runs CREATE TABLE IF NOT EXISTS with the column constraints; rows are unchanged |
| Storage.PrintStorage.CreateEntry | src/main/java/org/folio/print/server/storage/PrintStorage.java:92-106 | success exactly when every NOT NULL column is set and the id is new, and then the row is added; on failure the table is unchanged |
| Storage.PrintStorage.GetEntryWoCheck | src/main/java/org/folio/print/server/storage/PrintStorage.java:129-140 | the stored entry for the id, or null when there is none |
| Storage.PrintStorage.GetEntry | src/main/java/org/folio/print/server/storage/PrintStorage.java:119-127 | the stored entry, with the requested id; NotFoundException when there is none |
| Storage.PrintStorage.DeleteEntry | src/main/java/org/folio/print/server/storage/PrintStorage.java:148-163 | a stored id is removed with success; otherwise NotFoundException and nothing changes |
| Storage.PrintStorage.UpdateEntry | src/main/java/org/folio/print/server/storage/PrintStorage.java:171-194 | NotFound exactly for a missing id; success exactly for a stored id with every NOT NULL column set, and then that row is replaced; on failure nothing changes |
| Storage.PrintStorage.GetEntriesByQuery | src/main/java/org/folio/print/server/storage/PrintStorage.java:285-299 | a parse failure or database failure is the result; otherwise the entries of the returned rows, in order |
| Storage.CreateThenGet | src/main/java/org/folio/print/server/storage/PrintStorage.java:92-127 | after a successful create, get returns the same fields with created at UTC |
| Storage.DeleteThenAccess | src/main/java/org/folio/print/server/storage/PrintStorage.java:119-194 | after a delete, get, update and a second delete of that id all give NotFoundException |
| Http.Response.Write | src/main/java/org/folio/print/server/storage/PrintStorage.java:229-237 | appends the chunk; nothing else changes |
| Http.Response.End | src/main/java/org/folio/print/server/storage/PrintStorage.java:274-275 | appends the last text and ends the response |
| Json.MembersOmitNulls | src/main/java/org/folio/print/server/data/PrintEntry.java:11-23 | the entry's JSON keys are exactly its non-null fields, in declaration order |
| Json.KeysConcat | src/main/java/org/folio/print/server/data/PrintEntry.java:11-23 | the keys of concatenated member lists concatenate |
| Json.EncodeEntry | src/main/java/org/folio/print/server/storage/PrintStorage.java:236-237 | the entry is one JSON object whose first member is "id" whenever the id is set, and an entry with no fields is {} |
| Json.EncodeInfo | src/main/java/org/folio/print/server/storage/PrintStorage.java:261-274 | the resultInfo object starts with totalRecords when a count is present, and otherwise directly with the diagnostics array |
| Json.Footer | src/main/java/org/folio/print/server/storage/PrintStorage.java:261-276 | totalRecords exactly when a count row is given; one diagnostic exactly when a message is given |
| Streaming.ListingOf | src/main/java/org/folio/print/server/storage/PrintStorage.java:232-255 | items are every delivered row in order; the footer has the count after a clean end when the count succeeds, and otherwise the failure's message |
| Streaming.ListingText | src/main/java/org/folio/print/server/storage/PrintStorage.java:229-237 | the listing body opens the items array, holds the comma-joined encoded items, and ends with the resultInfo footer |
| Streaming.WriteItems | src/main/java/org/folio/print/server/storage/PrintStorage.java:230-238 | the body grows by the items joined with commas, the first with none before it |
| Streaming.ResultFooter | src/main/java/org/folio/print/server/storage/PrintStorage.java:261-276 | closes the array, writes the resultInfo object and ends the response |
| Streaming.FinishStream | src/main/java/org/folio/print/server/storage/PrintStorage.java:239-255 | counts only after a clean end, writes the footer, commits, and closes only after the commit succeeds |
| Streaming.StreamResult | src/main/java/org/folio/print/server/storage/PrintStorage.java:217-259 | a failed prepare or begin writes nothing; otherwise the body is the whole listing text, and the connection sees prepare, begin, the count, commit and close in that order |
| Streaming.GetEntries | src/main/java/org/folio/print/server/storage/PrintStorage.java:205-215 | a parse failure happens before any connection and a connect failure is the result; after connecting, the call fails exactly when prepare or begin fails, with that error, and the connection is closed; success writes the listing of the cursor with the count of the shared FROM fragment |
| Streaming.TotalIndependentOfPage | src/main/java/org/folio/print/server/storage/PrintStorage.java:205-215 | two listings differing only in offset and limit run the same count query, so their footers agree when both cursors end cleanly, and a successful count is the totalRecords |
| Streaming.ItemsInCursorOrder | src/main/java/org/folio/print/server/storage/PrintStorage.java:232-238 | items from consecutive row batches are joined in cursor order with one comma between them |
| Pdf.ReplaceBr | src/main/java/org/folio/print/server/service/PdfService.java:34 | Java's replace of "<br>" by "<br/>" never shortens the text |
| Pdf.ReplaceBrKeepsPrefix | src/main/java/org/folio/print/server/service/PdfService.java:34 | the replacement leaves the first three characters as they were |
| Pdf.ReplaceBrLeavesNoBr | src/main/java/org/folio/print/server/service/PdfService.java:34 | after the replacement no "<br>" remains |
| Pdf.ReplaceBrIdentity | src/main/java/org/folio/print/server/service/PdfService.java:34 | text without "<br>" is unchanged |
| Pdf.ReplaceBrBeforeDivEnd | src/main/java/org/folio/print/server/service/PdfService.java:33-34 | the closing "</div>" neither takes part in nor is changed by the replacement |
| Pdf.ReplaceBrAfterDivStart | src/main/java/org/folio/print/server/service/PdfService.java:33-34 | the opening "<div>" neither takes part in nor is changed by the replacement |
| Pdf.RendererInputShape | src/main/java/org/folio/print/server/service/PdfService.java:33-34 | the renderer gets the input's own replacement inside "<div>...</div>", with no "<br>" left; input without "<br>" is only wrapped |
| Pdf.RendererInput | src/main/java/org/folio/print/server/service/PdfService.java:33-34 | the renderer input is the body's own rewrite between an untouched "<div>" and "</div>" |
| Pdf.CreatePdfFile | src/main/java/org/folio/print/server/service/PdfService.java:29-47 | null or blank HTML gives empty bytes without rendering; otherwise it renders the wrapped input; an IO or document error gives empty bytes; any other error escapes |
| Pdf.Merger.AddSource | src/main/java/org/folio/print/server/service/PdfService.java:61 | appends one merge source |
| Pdf.SourcesConcat | src/main/java/org/folio/print/server/service/PdfService.java:58-66 | the sources of a concatenated list are the sources of each part, in order |
| Pdf.BlankEntriesAddNothing | src/main/java/org/folio/print/server/service/PdfService.java:59 | entries with null or blank content give no sources |
| Pdf.BlankEntriesSkipped | src/main/java/org/folio/print/server/service/PdfService.java:58-66 | blank or null entries anywhere in the list leave the sources unchanged |
| Pdf.CombinePdfFiles | src/main/java/org/folio/print/server/service/PdfService.java:54-75 | an empty list gives empty bytes without merging; otherwise it merges the entries' decoded non-blank contents in list order, skipping undecodable ones; a merge IO error gives empty bytes; any other error escapes |
| Batch.Cutoff | src/main/java/org/folio/print/server/service/BatchCreationService.java:33 | the cutoff is one day and five minutes before the given wall-clock time |
| Batch.BatchQuery | src/main/java/org/folio/print/server/service/BatchCreationService.java:35-36 | the selection asks for type "SINGLE" created after the given cutoff text, sorted by sortingField then created |
| Batch.SavedEntryInWindow | src/main/java/org/folio/print/server/service/BatchCreationService.java:33-36 | a SINGLE entry is selected exactly when it is younger than a day and five minutes less the JVM zone's UTC offset |
| Batch.BatchEntry | src/main/java/org/folio/print/server/service/BatchCreationService.java:46-50 | the batch entry has the fresh id, type BATCH, created now at UTC, no sorting field and the given content |
| Batch.Process | src/main/java/org/folio/print/server/service/BatchCreationService.java:29-53 | a translation failure escapes before any response; otherwise it answers 204 with no body, and only a successful non-empty listing whose merge did not throw inserts a BATCH entry holding the hex of the merged selection; the cutoff comes from the clock reading at the request (local time, less one day and five minutes) and the entry's created time from the later reading taken after the merge; nothing else in the store changes |
| Service.CommonError | src/main/java/org/folio/print/server/service/PrintService.java:58-70 | no cause gives the default code and its reason phrase; otherwise the cause's message |
| Service.CommonErrorStatus | src/main/java/org/folio/print/server/service/PrintService.java:58-70 | when the default code is neither 400 nor 404: 404 exactly for NotFoundException, 400 exactly for EntryException, the default code exactly for everything else |
| Service.HandlerFailureStatus | src/main/java/org/folio/print/server/service/PrintService.java:54-56 | with default 500 every failure is answered 400, 404 or 500, and 500 exactly for database and other errors |
| Service.SendError | src/main/java/org/folio/print/server/service/PrintService.java:58-70 | writes the reply's status and text as a plain-text response and ends it; an absent message is written as the helper's text for it |
| Service.Finish | src/main/java/org/folio/print/server/service/PrintService.java:72-111 | on failure a handler answers through commonError with default 500; on success nothing more is written |
| Service.PostPrintEntry | src/main/java/org/folio/print/server/service/PrintService.java:130-141 | creates the entry and answers 204 with an empty body; a failure leaves the table unchanged and ends the response with the commonError reply (status and body); the provisioned flag is never touched |
| Service.IdReply | src/main/java/org/folio/print/server/service/PrintService.java:157 | the saveMail reply is the object with the single member "id" holding the new id |
| Service.IdReplyShape | src/main/java/org/folio/print/server/service/PrintService.java:157 | the saveMail reply is the same text an entry with only its id set encodes to |
| Service.MailEntry | src/main/java/org/folio/print/server/service/PrintService.java:148-153 | a fresh id, SINGLE, created now at UTC, sorting field the recipient, the given content |
| Service.SaveMail | src/main/java/org/folio/print/server/service/PrintService.java:143-160 | stores an entry with the hex of the rendered body as content (empty bytes' hex for a blank body or an IO or document error); a renderer exception stores nothing and is the failure; success answers 200 with the id; any failure leaves the table unchanged and ends the response with the commonError reply; the provisioned flag is never touched |
| Service.GetPrintEntry | src/main/java/org/folio/print/server/service/PrintService.java:162-172 | 200 with the stored entry's JSON exactly when the id is stored; otherwise 404 |
| Service.DeletePrintEntry | src/main/java/org/folio/print/server/service/PrintService.java:174-184 | 204 exactly when the id was stored, and the row is gone either way; otherwise the response ends with 404; the provisioned flag is never touched |
| Service.UpdatePrintEntry | src/main/java/org/folio/print/server/service/PrintService.java:186-201 | a path id unlike the body id gives 400 "id mismatch" with the store untouched; otherwise the update's outcome, and 204 on success; every failure leaves the store untouched and ends the response with the commonError reply (status and body); the provisioned flag is never touched |
| Service.GetPrintEntries | src/main/java/org/folio/print/server/service/PrintService.java:203-211 | the query, offset and limit reach the listing unchanged; a parse or connect failure is the result, and after connecting the call fails exactly when prepare or begin fails, with that error; a failure ends the response with the commonError status |
| Service.PostInit | src/main/java/org/folio/print/server/service/PrintService.java:213-220 | without "module_to" nothing happens; with it the table is created if missing; rows never change |

## Left out

- Vert.x futures and concurrency: each request is one sequential step. Races between concurrent updates and deletes, and the fire-and-forget timing of batch creation, are not modelled.
- Tenant pools, connection setup details, the stream fetch size and snapshot isolation are not modelled. The cursor's rows and end, and the count's answer, are inputs.
- Request routing, OpenAPI validation (missing headers, malformed bodies or UUIDs, the 64 MB body limit) and startup wiring belong to the web library and are not modelled.
- CQL semantics: the parser is an opaque function. Which rows a where clause matches, and in what order they come back, are inputs.
- JSON value encoding (strings, UUIDs, timestamps), `Hex.getString`, `Hex.decodeHex`, the HTML renderer and the PDF merger are opaque parameters. No hex round trip is assumed.
- `LocalDateTime.toString`, the cutoff's format inside the batch CQL, is a parameter.
- Storage.PrintStorage.CreateEntry: a zero-row INSERT cannot occur in the table model, so the "Failed to create" path is reachable only through Storage.CreateOutcome.
- Storage.PrintStorage.DeleteEntry: the read-then-delete race, where a row vanishes between the two statements, is not modelled.
- An unprovisioned table (queries before tenant init) is not modelled. `provisioned` only records that init ran.
- Streaming.ResultFooter: Java's narrowing of the count to `int` is not modelled; the count is an unbounded integer.
- Pdf.CombinePdfFiles: a runtime exception from the hex decoder is not modelled; only its IOException is.
- Service.SendError: okapi's `HttpResponse.responseError` is not part of this model. Its rendering is taken to be the status code, a text/plain content type and the message as the body, with an absent message written as a text that is a parameter of the model.
- Entries.RowRoundTrip: the created timestamp is whole seconds here. A Postgres TIMESTAMP keeps microseconds, so a Java timestamp with nanoseconds would come back truncated; the model does not carry sub-second precision.
- Service.SaveMail: a renderer exception thrown before the future exists reaches the route's failure handler, which the web library gives status 500. It is modelled as the same commonError reply with default 500.
- Service.GetPrintEntries: `createSqlQuery` throws a CQL parse failure before any future exists, so it too reaches the route's failure handler (status 500 from the web library). It is modelled, like Service.SaveMail, as the commonError reply with default 500.
- Logging has no modelled behaviour.
