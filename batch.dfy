/**
 * `BatchCreationService`: collects the SINGLE entries of roughly the last
 * day, merges their PDFs into one document and stores it as a BATCH entry.
 * The clock, the JVM's zone, the random UUID and the libraries are inputs.
 */
module Batch {

  import opened Wrappers
  import opened Text
  import opened Entries
  import opened Failures
  import opened Query
  import opened Http
  import opened Storage
  import opened Pdf

  /** At most this many entries go into one batch. */
  const MAX_COUNT_IN_BATCH: int := 1000

  const SECONDS_PER_DAY: int := 86400
  const FIVE_MINUTES: int := 300

  /** The oldest wall-clock time still collected: one day and five minutes before now. */
  function Cutoff(nowLocal: LocalDateTime): (c: LocalDateTime)
    ensures c < nowLocal && nowLocal - c == SECONDS_PER_DAY + FIVE_MINUTES
  {
    nowLocal - SECONDS_PER_DAY - FIVE_MINUTES
  }

  /** The CQL selection: SINGLE entries created after the cutoff, by sorting field then creation time. */
  function BatchQuery(cutoffText: string): (q: string)
    ensures StartsWith(q, "type=\"SINGLE\" and created > ")
    ensures EndsWith(q, " sortby sortingField created")
    ensures |q| == |"type=\"SINGLE\" and created > "| + |cutoffText| + |" sortby sortingField created"|
    ensures q[|"type=\"SINGLE\" and created > "|..|q| - |" sortby sortingField created"|] == cutoffText
  {
    Framed("type=\"SINGLE\" and created > ", cutoffText, " sortby sortingField created");
    "type=\"SINGLE\" and created > " + cutoffText + " sortby sortingField created"
  }

  /** The rows the selection is meant to match for a given cutoff. */
  predicate InWindow(row: Row, cutoff: LocalDateTime)
  {
    row.entryType == SINGLE && row.created > cutoff
  }

  /**
   * The cutoff is taken from the JVM's wall clock while `created` is stored
   * at UTC: a SINGLE entry is in the window exactly when it is younger than
   * a day and five minutes less the JVM zone's offset from UTC (east of
   * UTC the window is shorter, west of it longer). Only at offset zero is
   * the window the intended day and five minutes.
   */
  lemma SavedEntryInWindow(e: PrintEntry, nowInstant: int, zoneOffset: int)
    requires HasRequiredColumns(e) && e.entryType == Some(SINGLE)
    ensures InWindow(ToRow(e), Cutoff(nowInstant + zoneOffset)) <==>
      nowInstant - e.created.value.Instant() < SECONDS_PER_DAY + FIVE_MINUTES - zoneOffset
    ensures zoneOffset == 0 ==>
      (InWindow(ToRow(e), Cutoff(nowInstant)) <==> nowInstant - e.created.value.Instant() < SECONDS_PER_DAY + FIVE_MINUTES)
  {
    assert ToRow(e).created == ZonedDateTime(ToRow(e).created, 0).Instant() == e.created.value.Instant();
  }

  /** The batch entry stored for merged bytes: a new id, created now at UTC, type BATCH, hex content. */
  function BatchEntry(id: Uuid, nowInstant: int, content: string): (e: PrintEntry)
    ensures HasRequiredColumns(e) && e.entryType == Some(BATCH) && e.sortingField == None
    ensures e.created.value.offsetSeconds == 0 && e.created.value.Instant() == nowInstant
  {
    PrintEntry(Some(id), Some(ZonedDateTime(nowInstant, 0)), Some(BATCH), None, Some(content))
  }

  /**
   * `process`. The selection query is translated first: a translation
   * failure is thrown out of the handler before any response is sent.
   * Otherwise the response is 204 with no body, and then, if the listing
   * succeeded with at least one entry and merging did not throw, one BATCH
   * entry holding the hex of the merged PDF is created; nothing else in the
   * store changes, and a failed listing or create is only logged.
   * `batch` records the entry handed to `createEntry`. The clock is read
   * twice: `selectedAt` for the cutoff, and `createdAt`, later, for the
   * BATCH entry's creation time.
   */
  method Process(store: PrintStorage, response: Response, parse: CqlParser, db: Database,
                 format: LocalDateTime -> string, decode: string -> DecodeOutcome,
                 merge: seq<Bytes> -> MergeOutcome, hex: Bytes -> string,
                 selectedAt: int, zoneOffset: int, createdAt: int, freshId: Uuid)
    returns (r: Result<(), Failure>, ghost batch: Option<PrintEntry>)
    requires store.Valid() && !response.ended
    modifies store, response
    ensures store.Valid() && store.provisioned == old(store.provisioned)
    ensures var sql := CreateSqlQuery(store.printTable, parse,
                                      Some(BatchQuery(format(Cutoff(selectedAt + zoneOffset)))), 0, MAX_COUNT_IN_BATCH);
      && (sql.Failure? ==>
            && r == Failure(sql.error) && batch == None
            && store.rows == old(store.rows)
            && response.status == old(response.status) && !response.ended && response.body == old(response.body))
      && (sql.Success? ==>
            && r == Success(())
            && response.status == 204 && response.ended && response.body == old(response.body)
            && var listed := db(sql.value.items);
            && (batch.Some? <==>
                  listed.Success? && listed.value != []
                  && !merge(Sources(EntriesOf(listed.value), decode)).MergeRuntimeError?)
            && (batch.Some? ==>
                  var merged := merge(Sources(EntriesOf(listed.value), decode));
                  batch.value == BatchEntry(freshId, createdAt,
                                            hex(if merged.Merged? then merged.pdf else []))))
    ensures batch.None? ==> store.rows == old(store.rows)
    ensures batch.Some? ==>
      store.rows == if freshId in old(store.rows) then old(store.rows)
                    else old(store.rows)[freshId := ToRow(batch.value)]
  {
    batch := None;
    var query := BatchQuery(format(Cutoff(selectedAt + zoneOffset)));
    var translated := CreateSqlQuery(store.printTable, parse, Some(query), 0, MAX_COUNT_IN_BATCH);
    if translated.Failure? {
      return Failure(translated.error), None;
    }
    var listed := store.GetEntriesByQuery(parse, db, query, 0, MAX_COUNT_IN_BATCH);
    response.SetStatusCode(204);
    response.End("");
    if listed.Success? && listed.value != [] {
      var merged;
      ghost var sources;
      merged, sources := CombinePdfFiles(listed.value, decode, merge);
      if merged.Success? {
        var entry := BatchEntry(freshId, createdAt, hex(merged.value));
        var _ := store.CreateEntry(entry);
        batch := Some(entry);
      }
    }
    r := Success(());
  }
}
