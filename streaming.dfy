/**
 * The streamed listing of `getEntries`/`streamResult`/`resultFooter`: the
 * query is translated before a connection is taken; on one connection and
 * one transaction the rows of a cursor are written one by one inside
 * `{ "items" : [ ... ], "resultInfo": ... }`, and after the last row the
 * count query runs in the same transaction. Whatever the database does is
 * an input: preparing the statement, beginning the transaction, the rows
 * the cursor delivers and how it ends, the count, and the commit.
 */
module Streaming {

  import opened Wrappers
  import opened Text
  import opened Entries
  import opened Failures
  import opened Query
  import opened Json
  import opened Http
  import opened Storage

  /** How a cursor stops: after its last row, or with an exception. */
  datatype StreamEnd = Exhausted | StreamError(error: Failure)

  /** What a cursor delivers: its rows in order, then its end. */
  datatype Cursor = Cursor(rows: seq<Row>, end: StreamEnd)

  /** The database's behaviour during one listing. */
  datatype ListingDb = ListingDb(
    connectError: Option<Failure>,
    prepareError: string -> Option<Failure>,
    beginError: Option<Failure>,
    cursor: string -> Cursor,
    count: string -> Result<int, Failure>,
    commitOk: bool)

  /** What happens on the connection, in order. */
  datatype ConnEvent = Prepare(sql: string) | Begin | Execute(sql: string) | Commit | Close

  /** The pooled connection a listing holds, as the trace of calls made on it. */
  class Connection {
    var events: seq<ConnEvent>

    constructor ()
      ensures events == []
    {
      events := [];
    }

    method Record(e: ConnEvent)
      modifies this
      ensures events == old(events) + [e]
    {
      events := events + [e];
    }
  }

  /** What a listing reports: the items written and the `resultInfo` footer. */
  datatype Listing = Listing(items: seq<PrintEntry>, info: ResultInfo)

  /**
   * The listing for a cursor: all rows it delivered, and a footer with the
   * count when the count query succeeded, or the failure's message (if it
   * has one) when the cursor or the count query failed.
   */
  function ListingOf(c: Cursor, count: Option<Result<int, Failure>>): (l: Listing)
    ensures l.items == EntriesOf(c.rows)
    ensures c.end.StreamError? ==> l.info == Footer(None, c.end.error.GetMessage())
    ensures c.end.Exhausted? && count.None? ==> l.info == Footer(None, None)
    ensures c.end.Exhausted? && count.Some? && count.value.Success? ==> l.info == Footer(Some(count.value.value), None)
    ensures c.end.Exhausted? && count.Some? && count.value.Failure? ==> l.info == Footer(None, count.value.error.GetMessage())
  {
    var info :=
      match c.end
      case StreamError(e) => Footer(None, e.GetMessage())
      case Exhausted =>
        match count
        case None => Footer(None, None)
        case Some(Success(n)) => Footer(Some(n), None)
        case Some(Failure(f)) => Footer(None, f.GetMessage());
    Listing(EntriesOf(c.rows), info)
  }

  const ItemsOpen := "{ \"items\" : ["

  function FooterText(info: ResultInfo, j: JsonCodec): string
  {
    "], \"resultInfo\": " + EncodeInfo(info, j) + "}"
  }

  function EncodedItems(es: seq<PrintEntry>, j: JsonCodec): (ts: seq<string>)
    ensures |ts| == |es| && forall i :: 0 <= i < |es| ==> ts[i] == EncodeEntry(es[i], j)
  {
    seq(|es|, i requires 0 <= i < |es| => EncodeEntry(es[i], j))
  }

  /** The whole body written for a listing. */
  function ListingText(l: Listing, j: JsonCodec): (text: string)
    ensures StartsWith(text, ItemsOpen) && EndsWith(text, FooterText(l.info, j))
    ensures |text| == |ItemsOpen| + |Join(EncodedItems(l.items, j))| + |FooterText(l.info, j)|
    ensures text[|ItemsOpen|..|text| - |FooterText(l.info, j)|] == Join(EncodedItems(l.items, j))
  {
    Framed(ItemsOpen, Join(EncodedItems(l.items, j)), FooterText(l.info, j));
    ItemsOpen + Join(EncodedItems(l.items, j)) + FooterText(l.info, j)
  }

  lemma RegroupFrame(a: string, b: string, c: string, d: string)
    ensures a + (b + c + d) == a + b + c + d
  {
  }

  /** One more item: a separator, unless it is the first, then the item. */
  lemma JoinStep(ts: seq<string>, i: nat)
    requires i < |ts|
    ensures Join(ts[..i + 1]) == Join(ts[..i]) + (if i == 0 then "" else ",") + ts[i]
  {
    assert ts[..i + 1][..i] == ts[..i];
  }

  /**
   * The row handler of `streamResult`: each item is written as it arrives,
   * preceded by "," unless the `first` flag is still set.
   */
  method WriteItems(response: Response, texts: seq<string>)
    requires !response.ended
    modifies response
    ensures response.body == old(response.body) + Join(texts)
    ensures !response.ended && response.status == old(response.status)
    ensures response.chunked == old(response.chunked) && response.contentType == old(response.contentType)
  {
    var first := true;
    var i := 0;
    while i < |texts|
      invariant 0 <= i <= |texts|
      invariant first <==> i == 0
      invariant response.body == old(response.body) + Join(texts[..i])
      invariant !response.ended && response.status == old(response.status)
      invariant response.chunked == old(response.chunked) && response.contentType == old(response.contentType)
    {
      if !first {
        response.Write(",");
      }
      first := false;
      response.Write(texts[i]);
      JoinStep(texts, i);
      i := i + 1;
    }
    assert texts[..|texts|] == texts;
  }

  /** `resultFooter`: closes the items array, writes `resultInfo` and ends the response. */
  method ResultFooter(response: Response, count: Option<int>, diagnostic: Option<string>, j: JsonCodec)
    requires !response.ended
    modifies response
    ensures response.body == old(response.body) + FooterText(Footer(count, diagnostic), j)
    ensures response.ended && response.status == old(response.status)
    ensures response.chunked == old(response.chunked) && response.contentType == old(response.contentType)
  {
    response.End(FooterText(Footer(count, diagnostic), j));
  }

  /** The end and exception handlers: count (only after a clean end), footer, commit, then close. */
  method FinishStream(response: Response, conn: Connection, db: ListingDb, c: Cursor,
                      cnt: Option<string>, j: JsonCodec)
    requires !response.ended
    modifies response, conn
    ensures var count := if c.end.Exhausted? && cnt.Some? then Some(db.count(cnt.value)) else None;
      response.body == old(response.body) + FooterText(ListingOf(c, count).info, j)
    ensures conn.events == old(conn.events)
      + (if c.end.Exhausted? && cnt.Some? then [Execute(cnt.value)] else [])
      + [Commit] + (if db.commitOk then [Close] else [])
    ensures response.ended && response.status == old(response.status)
    ensures response.chunked == old(response.chunked) && response.contentType == old(response.contentType)
  {
    if c.end.StreamError? {
      ResultFooter(response, None, c.end.error.GetMessage(), j);
    } else if cnt.Some? {
      conn.Record(Execute(cnt.value));
      var counted := db.count(cnt.value);
      if counted.Success? {
        ResultFooter(response, Some(counted.value), None, j);
      } else {
        ResultFooter(response, None, counted.error.GetMessage(), j);
      }
    } else {
      ResultFooter(response, None, None, j);
    }
    conn.Record(Commit);
    if db.commitOk {
      conn.Record(Close);
    }
  }

  /**
   * `streamResult`: prepare the query and begin a transaction (a failure
   * here fails the call before anything is written); then write the items
   * frame row by row, and when the cursor ends run the count query, write
   * the footer, commit and, when the commit succeeds, close.
   */
  method StreamResult(response: Response, conn: Connection, db: ListingDb, query: string,
                      cnt: Option<string>, j: JsonCodec)
    returns (r: Result<(), Failure>)
    requires !response.ended
    modifies response, conn
    ensures r.Failure? <==> db.prepareError(query).Some? || db.beginError.Some?
    ensures db.prepareError(query).Some? ==>
      && r == Failure(db.prepareError(query).value)
      && conn.events == old(conn.events) + [Prepare(query)]
    ensures db.prepareError(query).None? && db.beginError.Some? ==>
      && r == Failure(db.beginError.value)
      && conn.events == old(conn.events) + [Prepare(query), Begin]
    ensures r.Failure? ==>
      && response.body == old(response.body) && !response.ended
      && response.chunked == old(response.chunked) && response.contentType == old(response.contentType)
    ensures r.Success? ==>
      var c := db.cursor(query);
      var counted := c.end.Exhausted? && cnt.Some?;
      && response.chunked && response.contentType == Some("application/json") && response.ended
      && response.body == old(response.body)
           + ListingText(ListingOf(c, if counted then Some(db.count(cnt.value)) else None), j)
      && conn.events == old(conn.events) + [Prepare(query), Begin]
           + (if counted then [Execute(cnt.value)] else [])
           + [Commit] + (if db.commitOk then [Close] else [])
    ensures response.status == old(response.status)
  {
    conn.Record(Prepare(query));
    if db.prepareError(query).Some? {
      return Failure(db.prepareError(query).value);
    }
    conn.Record(Begin);
    if db.beginError.Some? {
      return Failure(db.beginError.value);
    }
    response.SetChunked();
    response.PutContentType("application/json");
    response.Write(ItemsOpen);
    var c := db.cursor(query);
    ghost var count := if c.end.Exhausted? && cnt.Some? then Some(db.count(cnt.value)) else None;
    ghost var listing := ListingOf(c, count);
    ghost var body0 := response.body;
    ghost var events0 := conn.events;
    WriteItems(response, EncodedItems(EntriesOf(c.rows), j));
    ghost var body1 := response.body;
    FinishStream(response, conn, db, c, cnt, j);
    assert response.body == body1 + FooterText(listing.info, j);
    assert body1 == body0 + Join(EncodedItems(listing.items, j));
    assert body0 == old(response.body) + ItemsOpen;
    assert ListingText(listing, j) == ItemsOpen + Join(EncodedItems(listing.items, j)) + FooterText(listing.info, j);
    RegroupFrame(old(response.body), ItemsOpen, Join(EncodedItems(listing.items, j)), FooterText(listing.info, j));
    assert events0 == old(conn.events) + [Prepare(query), Begin];
    r := Success(());
  }

  /**
   * `getEntries`: translation first (a parse failure touches neither the
   * connection nor the response), then a connection from the pool, then
   * `streamResult` with the listing query and
   * `SELECT COUNT(*) FROM <fragment>`; a failed setup closes the connection.
   */
  method GetEntries(store: PrintStorage, response: Response, conn: Connection, parse: CqlParser,
                    db: ListingDb, cql: Option<string>, offset: int, limit: int, j: JsonCodec)
    returns (r: Result<(), Failure>)
    requires !response.ended
    modifies response, conn
    ensures var sql := CreateSqlQuery(store.printTable, parse, cql, offset, limit);
      sql.Failure? ==> r == Failure(sql.error) && conn.events == old(conn.events)
    ensures var sql := CreateSqlQuery(store.printTable, parse, cql, offset, limit);
      sql.Success? && db.connectError.Some? ==> r == Failure(db.connectError.value) && conn.events == old(conn.events)
    ensures var sql := CreateSqlQuery(store.printTable, parse, cql, offset, limit);
      sql.Success? && db.connectError.None? ==>
        var prepared := db.prepareError(sql.value.items);
        && (r.Failure? <==> prepared.Some? || db.beginError.Some?)
        && (prepared.Some? ==> r == Failure(prepared.value))
        && (prepared.None? && db.beginError.Some? ==> r == Failure(db.beginError.value))
    ensures var sql := CreateSqlQuery(store.printTable, parse, cql, offset, limit);
      sql.Success? && db.connectError.None? && r.Failure? ==>
        conn.events == old(conn.events) + [Prepare(sql.value.items)]
          + (if db.prepareError(sql.value.items).None? then [Begin] else []) + [Close]
    ensures var sql := CreateSqlQuery(store.printTable, parse, cql, offset, limit);
      sql.Success? && db.connectError.None? && r.Success? ==>
        var c := db.cursor(sql.value.items);
        var count := CountQuery(sql.value);
        && response.ended
        && response.body == old(response.body)
             + ListingText(ListingOf(c, if c.end.Exhausted? then Some(db.count(count)) else None), j)
        && conn.events == old(conn.events) + [Prepare(sql.value.items), Begin]
             + (if c.end.Exhausted? then [Execute(count)] else [])
             + [Commit] + (if db.commitOk then [Close] else [])
    ensures r.Failure? ==> response.body == old(response.body) && !response.ended
    ensures response.status == old(response.status)
  {
    var sql := CreateSqlQuery(store.printTable, parse, cql, offset, limit);
    if sql.Failure? {
      return Failure(sql.error);
    }
    var countQuery := CountQuery(sql.value);
    if db.connectError.Some? {
      return Failure(db.connectError.value);
    }
    r := StreamResult(response, conn, db, sql.value.items, Some(countQuery), j);
    if r.Failure? {
      conn.Record(Close);
    }
  }

  /**
   * The footer's total does not depend on the page: listings of the same
   * filter that differ only in offset and limit run the same count query,
   * so when both cursors end cleanly their footers agree, and a count that
   * succeeds is reported as totalRecords.
   */
  lemma TotalIndependentOfPage(table: string, parse: CqlParser, cql: Option<string>, db: ListingDb,
                               offset: int, limit: int, offset': int, limit': int)
    requires CreateSqlQuery(table, parse, cql, offset, limit).Success?
    ensures var sql := CreateSqlQuery(table, parse, cql, offset, limit);
      var sql' := CreateSqlQuery(table, parse, cql, offset', limit');
      && sql'.Success?
      && CountQuery(sql.value) == CountQuery(sql'.value)
      && var c := db.cursor(sql.value.items);
         var c' := db.cursor(sql'.value.items);
         var count := db.count(CountQuery(sql.value));
         && (c.end.Exhausted? && c'.end.Exhausted? ==>
               ListingOf(c, Some(count)).info == ListingOf(c', Some(db.count(CountQuery(sql'.value)))).info)
         && (c.end.Exhausted? && count.Success? ==>
               ListingOf(c, Some(count)).info.totalRecords == Some(count.value))
  {
    var q := parse(Definition, cql).value;
    CountQueryIgnoresPaging(table, q, q, offset, limit, offset', limit');
  }

  /** Items are joined in cursor order with one separator between neighbours. */
  lemma ItemsInCursorOrder(rows: seq<Row>, more: seq<Row>, j: JsonCodec)
    requires |rows| > 0 && |more| > 0
    ensures Join(EncodedItems(EntriesOf(rows + more), j))
         == Join(EncodedItems(EntriesOf(rows), j)) + "," + Join(EncodedItems(EntriesOf(more), j))
  {
    assert EncodedItems(EntriesOf(rows + more), j) == EncodedItems(EntriesOf(rows), j) + EncodedItems(EntriesOf(more), j);
    JoinConcat(EncodedItems(EntriesOf(rows), j), EncodedItems(EntriesOf(more), j));
  }
}
