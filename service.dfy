/**
 * `PrintService`: the request handlers over one tenant's print storage, and
 * `commonError`, which turns a failure into a status code and a text reply.
 * Request parsing and validation belong to the web library: a handler gets
 * the already decoded path id, body and query parameters.
 */
module Service {

  import opened Wrappers
  import opened Entries
  import opened Failures
  import opened Query
  import opened Http
  import opened Storage
  import opened Json
  import opened Pdf
  import opened Text
  import opened Streaming

  /** The reply `commonError` sends: a status code and the text of the body. */
  datatype ErrorReply = ErrorReply(status: int, message: Option<string>)

  /**
   * How the HTTP helper renders an error reply: the reason phrase of a
   * status code, and the text it sends when the message is absent.
   */
  datatype ErrorText = ErrorText(reasonPhrase: int -> string, absentMessage: string)

  /** The body of an error reply: its message, or the helper's text for an absent one. */
  function ErrorBody(reply: ErrorReply, texts: ErrorText): string
  {
    if reply.message.Some? then reply.message.value else texts.absentMessage
  }

  const NOT_FOUND_STATUS: int := 404
  const BAD_REQUEST_STATUS: int := 400
  const INTERNAL_ERROR_STATUS: int := 500

  /**
   * `commonError`: no cause gives the default code with its reason phrase,
   * a missing entry gives 404, an invalid entry 400, and anything else the
   * default code; a cause's own message is the text.
   */
  function CommonError(cause: Option<Failure>, defaultCode: int, reasonPhrase: int -> string): (reply: ErrorReply)
    ensures cause.None? ==> reply == ErrorReply(defaultCode, Some(reasonPhrase(defaultCode)))
    ensures cause.Some? ==> reply.message == cause.value.GetMessage()
  {
    match cause
    case None => ErrorReply(defaultCode, Some(reasonPhrase(defaultCode)))
    case Some(NotFound) => ErrorReply(NOT_FOUND_STATUS, cause.value.GetMessage())
    case Some(EntryFailure(_)) => ErrorReply(BAD_REQUEST_STATUS, cause.value.GetMessage())
    case Some(_) => ErrorReply(defaultCode, cause.value.GetMessage())
  }

  /**
   * When the default code is neither 404 nor 400, 404 means exactly a
   * missing entry, 400 exactly an invalid one, and every other cause keeps
   * the default code.
   */
  lemma CommonErrorStatus(cause: Option<Failure>, defaultCode: int, reasonPhrase: int -> string)
    requires defaultCode != NOT_FOUND_STATUS && defaultCode != BAD_REQUEST_STATUS
    ensures CommonError(cause, defaultCode, reasonPhrase).status == NOT_FOUND_STATUS <==>
      cause == Some(NotFound)
    ensures CommonError(cause, defaultCode, reasonPhrase).status == BAD_REQUEST_STATUS <==>
      cause.Some? && cause.value.EntryFailure?
    ensures CommonError(cause, defaultCode, reasonPhrase).status == defaultCode <==>
      cause.None? || !(cause.value.NotFound? || cause.value.EntryFailure?)
  {
  }

  /** On the handler path the default is 500, so every failure is answered 400, 404 or 500. */
  lemma HandlerFailureStatus(cause: Failure, reasonPhrase: int -> string)
    ensures CommonError(Some(cause), INTERNAL_ERROR_STATUS, reasonPhrase).status in {400, 404, 500}
    ensures CommonError(Some(cause), INTERNAL_ERROR_STATUS, reasonPhrase).status == INTERNAL_ERROR_STATUS <==>
      cause.PgFailure? || cause.OtherFailure?
  {
  }

  /** Writes a `commonError` reply as a plain-text response. */
  method SendError(response: Response, cause: Option<Failure>, defaultCode: int, texts: ErrorText)
    requires !response.ended
    modifies response
    ensures var reply := CommonError(cause, defaultCode, texts.reasonPhrase);
      && response.status == reply.status && response.ended
      && response.contentType == Some("text/plain")
      && response.body == old(response.body) + ErrorBody(reply, texts)
    ensures response.chunked == old(response.chunked)
  {
    var reply := CommonError(cause, defaultCode, texts.reasonPhrase);
    response.SetStatusCode(reply.status);
    response.PutContentType("text/plain");
    response.End(ErrorBody(reply, texts));
  }

  /** The end of every handler: a failure is answered through `commonError` with default 500. */
  method Finish(response: Response, r: Result<(), Failure>, texts: ErrorText)
    requires r.Failure? ==> !response.ended
    modifies response
    ensures r.Success? ==> (response.status == old(response.status) && response.ended == old(response.ended)
      && response.body == old(response.body) && response.contentType == old(response.contentType))
    ensures r.Failure? ==>
      var reply := CommonError(Some(r.error), INTERNAL_ERROR_STATUS, texts.reasonPhrase);
      && response.status == reply.status && response.ended
      && response.body == old(response.body) + ErrorBody(reply, texts)
  {
    if r.Failure? {
      SendError(response, Some(r.error), INTERNAL_ERROR_STATUS, texts);
    }
  }

  /** `postPrintEntry`: the entry is created and the answer is 204 with an empty body. */
  method PostPrintEntry(store: PrintStorage, response: Response, entry: PrintEntry, texts: ErrorText)
    returns (r: Result<(), Failure>)
    requires store.Valid() && !response.ended
    modifies store, response
    ensures store.Valid() && store.provisioned == old(store.provisioned)
    ensures r == CreateOutcome(InsertResult(old(store.rows), entry))
    ensures r.Success? ==> (store.rows == old(store.rows)[entry.id.value := ToRow(entry)]
      && response.status == 204 && response.ended && response.body == old(response.body))
    ensures r.Failure? ==> (store.rows == old(store.rows)
      && response.status == CommonError(Some(r.error), INTERNAL_ERROR_STATUS, texts.reasonPhrase).status
      && response.ended
      && response.body == old(response.body) + ErrorBody(CommonError(Some(r.error), INTERNAL_ERROR_STATUS, texts.reasonPhrase), texts))
  {
    r := store.CreateEntry(entry);
    if r.Success? {
      response.SetStatusCode(204);
      response.End("");
    }
    Finish(response, r, texts);
  }

  /** The `{"id": ...}` object `saveMail` answers with. */
  function IdReply(id: Uuid, j: JsonCodec): (reply: string)
    ensures reply == "{" + j.str("id") + ":" + j.uuid(id) + "}"
  {
    EncodeObject([("id", j.uuid(id))], j)
  }

  /** The id reply is what encoding an entry with only its id set would give. */
  lemma IdReplyShape(id: Uuid, j: JsonCodec)
    ensures IdReply(id, j) == EncodeEntry(PrintEntry(Some(id), None, None, None, None), j)
  {
  }

  /** The entry `saveMail` stores for a message: new id, SINGLE, created now at UTC, sorted by recipient. */
  function MailEntry(id: Uuid, nowInstant: int, message: Message, content: string): (e: PrintEntry)
    ensures HasRequiredColumns(e) && e.id == Some(id) && e.entryType == Some(SINGLE)
    ensures e.sortingField == message.to && e.content == Some(content)
    ensures e.created.value.offsetSeconds == 0 && e.created.value.Instant() == nowInstant
  {
    PrintEntry(Some(id), Some(ZonedDateTime(nowInstant, 0)), Some(SINGLE), message.to, Some(content))
  }

  /**
   * `saveMail`: the message body is rendered to PDF (an exception of the
   * renderer other than an I/O or document one fails the request before
   * anything is stored), the entry is created with the hex of the PDF as
   * content, and the answer is 200 with the new id.
   */
  method SaveMail(store: PrintStorage, response: Response, message: Message, render: string -> RenderOutcome,
                  hex: Bytes -> string, j: JsonCodec, nowInstant: int, freshId: Uuid, texts: ErrorText)
    returns (r: Result<(), Failure>, ghost saved: Option<PrintEntry>)
    requires store.Valid() && !response.ended
    modifies store, response
    ensures store.Valid() && store.provisioned == old(store.provisioned)
    ensures saved.Some? ==>
      && saved.value.id == Some(freshId) && saved.value.entryType == Some(SINGLE)
      && saved.value.sortingField == message.to
      && saved.value.created.Some? && saved.value.created.value.Instant() == nowInstant
    ensures message.body.None? || IsBlank(message.body.value) ==>
      saved == Some(MailEntry(freshId, nowInstant, message, hex([])))
    ensures message.body.Some? && !IsBlank(message.body.value) ==>
      var rendered := render(RendererInput(message.body.value));
      && (rendered.RenderRuntimeError? <==> saved.None?)
      && (rendered.RenderRuntimeError? ==> r == Failure(rendered.error))
      && (rendered.Rendered? ==> saved == Some(MailEntry(freshId, nowInstant, message, hex(rendered.pdf))))
      && (rendered.RenderIoError? || rendered.RenderDocumentError? ==>
            saved == Some(MailEntry(freshId, nowInstant, message, hex([]))))
    ensures saved.None? ==> r.Failure? && store.rows == old(store.rows)
    ensures saved.Some? ==> r == CreateOutcome(InsertResult(old(store.rows), saved.value))
    ensures r.Success? ==> (saved.Some? && store.rows == old(store.rows)[freshId := ToRow(saved.value)]
      && response.status == 200 && response.ended && response.body == old(response.body) + IdReply(freshId, j))
    ensures r.Failure? ==> (store.rows == old(store.rows) && response.ended
      && response.status == CommonError(Some(r.error), INTERNAL_ERROR_STATUS, texts.reasonPhrase).status
      && response.body == old(response.body) + ErrorBody(CommonError(Some(r.error), INTERNAL_ERROR_STATUS, texts.reasonPhrase), texts))
  {
    saved := None;
    var pdf;
    ghost var engineInput;
    pdf, engineInput := CreatePdfFile(message.body, render);
    if pdf.Failure? {
      r := Failure(pdf.error);
    } else {
      var entry := MailEntry(freshId, nowInstant, message, hex(pdf.value));
      saved := Some(entry);
      r := store.CreateEntry(entry);
      if r.Success? {
        response.SetStatusCode(200);
        response.End(IdReply(freshId, j));
      }
    }
    Finish(response, r, texts);
  }

  /** `getPrintEntry`: the stored entry as JSON with status 200, or 404 when there is none. */
  method GetPrintEntry(store: PrintStorage, response: Response, id: Uuid, j: JsonCodec, texts: ErrorText)
    returns (r: Result<(), Failure>)
    requires store.Valid() && !response.ended
    modifies response
    ensures id in store.rows <==> r.Success?
    ensures r.Success? ==> (response.status == 200 && response.ended
      && response.contentType == Some("application/json")
      && response.body == old(response.body) + EncodeEntry(FromRow(store.rows[id]), j))
    ensures r.Failure? ==> (r.error == NotFound && response.status == NOT_FOUND_STATUS && response.ended
      && response.body == old(response.body) + ErrorBody(CommonError(Some(r.error), INTERNAL_ERROR_STATUS, texts.reasonPhrase), texts))
  {
    var got := store.GetEntry(id);
    if got.Success? {
      response.SetStatusCode(200);
      response.PutContentType("application/json");
      response.End(EncodeEntry(got.value, j));
      r := Success(());
    } else {
      r := Failure(got.error);
    }
    Finish(response, r, texts);
  }

  /** `deletePrintEntry`: 204 when the entry was there and is now gone, 404 otherwise. */
  method DeletePrintEntry(store: PrintStorage, response: Response, id: Uuid, texts: ErrorText)
    returns (r: Result<(), Failure>)
    requires store.Valid() && !response.ended
    modifies store, response
    ensures store.Valid() && store.provisioned == old(store.provisioned)
    ensures r.Success? <==> id in old(store.rows)
    ensures store.rows == old(store.rows) - {id}
    ensures r.Success? ==> response.status == 204 && response.ended && response.body == old(response.body)
    ensures r.Failure? ==> (r.error == NotFound && response.status == NOT_FOUND_STATUS && response.ended
      && response.body == old(response.body) + ErrorBody(CommonError(Some(r.error), INTERNAL_ERROR_STATUS, texts.reasonPhrase), texts))
  {
    r := store.DeleteEntry(id);
    if r.Success? {
      response.SetStatusCode(204);
      response.End("");
    }
    Finish(response, r, texts);
  }

  /**
   * `updatePrintEntry`: a body whose id differs from the path id is refused
   * with 400 "id mismatch" before the store is touched; otherwise the entry
   * is updated and the answer is 204.
   */
  method UpdatePrintEntry(store: PrintStorage, response: Response, id: Uuid, entry: PrintEntry,
                          texts: ErrorText)
    returns (r: Result<(), Failure>)
    requires store.Valid() && !response.ended
    modifies store, response
    ensures store.Valid() && store.provisioned == old(store.provisioned)
    ensures entry.id != Some(id) ==>
      r == Failure(EntryFailure("id mismatch")) && store.rows == old(store.rows)
      && response.status == BAD_REQUEST_STATUS && response.ended
      && response.body == old(response.body) + "id mismatch"
    ensures entry.id == Some(id) ==> r == UpdateOutcome(UpdateResult(old(store.rows), entry))
    ensures r.Success? ==> (entry.id == Some(id) && id in old(store.rows)
      && store.rows == old(store.rows)[id := ToRow(entry)]
      && response.status == 204 && response.ended && response.body == old(response.body))
    ensures r.Failure? ==> (store.rows == old(store.rows) && response.ended
      && response.status == CommonError(Some(r.error), INTERNAL_ERROR_STATUS, texts.reasonPhrase).status
      && response.body == old(response.body) + ErrorBody(CommonError(Some(r.error), INTERNAL_ERROR_STATUS, texts.reasonPhrase), texts))
  {
    if entry.id != Some(id) {
      r := Failure(EntryFailure("id mismatch"));
    } else {
      r := store.UpdateEntry(entry);
      if r.Success? {
        response.SetStatusCode(204);
        response.End("");
      }
    }
    Finish(response, r, texts);
  }

  /**
   * `getPrintEntries`: the query (absent when not given), offset and limit
   * go to the storage listing unchanged; its failure is answered through
   * `commonError`.
   */
  method GetPrintEntries(store: PrintStorage, response: Response, conn: Connection, parse: CqlParser,
                         db: ListingDb, query: Option<string>, offset: int, limit: int, j: JsonCodec,
                         texts: ErrorText)
    returns (r: Result<(), Failure>)
    requires !response.ended
    modifies response, conn
    ensures var sql := CreateSqlQuery(store.printTable, parse, query, offset, limit);
      && (sql.Failure? ==> r == Failure(sql.error) && conn.events == old(conn.events))
      && (sql.Success? && db.connectError.Some? ==> r == Failure(db.connectError.value) && conn.events == old(conn.events))
      && (sql.Success? && db.connectError.None? ==>
            var prepared := db.prepareError(sql.value.items);
            && (r.Failure? <==> prepared.Some? || db.beginError.Some?)
            && (prepared.Some? ==> r == Failure(prepared.value))
            && (prepared.None? && db.beginError.Some? ==> r == Failure(db.beginError.value)))
      && (r.Success? ==>
            sql.Success? &&
            var c := db.cursor(sql.value.items);
            && response.status == old(response.status) && response.ended
            && response.body == old(response.body)
                 + ListingText(ListingOf(c, if c.end.Exhausted? then Some(db.count(CountQuery(sql.value))) else None), j))
    ensures r.Failure? ==> (response.status == CommonError(Some(r.error), INTERNAL_ERROR_STATUS, texts.reasonPhrase).status
      && response.ended && response.body == old(response.body) + ErrorBody(CommonError(Some(r.error), INTERNAL_ERROR_STATUS, texts.reasonPhrase), texts))
  {
    r := GetEntries(store, response, conn, parse, db, query, offset, limit, j);
    Finish(response, r, texts);
  }

  /** The tenant attribute that marks an enable or upgrade, as opposed to a disable. */
  const MODULE_TO := "module_to"

  /**
   * `postInit`: without `module_to` in the tenant attributes nothing
   * happens; with it the table is created if it does not exist, which
   * leaves every stored row as it was.
   */
  method PostInit(store: PrintStorage, attributes: set<string>) returns (statement: Option<string>)
    requires store.Valid()
    modifies store
    ensures store.Valid() && store.rows == old(store.rows)
    ensures MODULE_TO !in attributes ==> statement == None && store.provisioned == old(store.provisioned)
    ensures MODULE_TO in attributes ==>
      statement == Some(CreateTableStatement(store.printTable)) && store.provisioned
  {
    if MODULE_TO !in attributes {
      return None;
    }
    var created := store.Init();
    statement := Some(created);
  }
}
