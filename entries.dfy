/**
 * The records of the service: the print entry as the JSON layer sees it
 * (every field nullable, null fields left out of the JSON), the mail
 * message, and the row of the per-tenant `printing` table.
 */
module Entries {

  import opened Wrappers

  /** A 128-bit UUID, as an opaque number. */
  newtype Uuid = x: int | 0 <= x < 0x1_0000_0000_0000_0000_0000_0000_0000_0000

  datatype EntryType = SINGLE | BATCH

  /** A `LocalDateTime`: wall-clock seconds, no zone attached. */
  type LocalDateTime = int

  /** A `ZonedDateTime`: wall-clock seconds together with the zone's offset from UTC. */
  datatype ZonedDateTime = ZonedDateTime(local: LocalDateTime, offsetSeconds: int) {
    /** The instant on the UTC time line. */
    function Instant(): int
    {
      local - offsetSeconds
    }
  }

  /** A print entry as read from or written to JSON; null is `None`. */
  datatype PrintEntry = PrintEntry(
    id: Option<Uuid>,
    created: Option<ZonedDateTime>,
    entryType: Option<EntryType>,
    sortingField: Option<string>,
    content: Option<string>)

  /** A mail message posted to the service. */
  datatype Message = Message(
    notificationId: Option<string>,
    from: Option<string>,
    to: Option<string>,
    outputFormat: Option<string>,
    header: Option<string>,
    body: Option<string>)

  /**
   * A row of the `printing` table: id is the primary key, created is a naive
   * timestamp read as UTC, and every column but sorting_field is NOT NULL.
   */
  datatype Row = Row(
    id: Uuid,
    created: LocalDateTime,
    entryType: EntryType,
    sortingField: Option<string>,
    content: string)

  /** `toLocalDateTime`: the same instant re-expressed at UTC, without the zone; null stays null. */
  function ToLocalDateTime(z: Option<ZonedDateTime>): (r: Option<LocalDateTime>)
    ensures r.Some? <==> z.Some?
    ensures z.Some? ==> ZonedDateTime(r.value, 0).Instant() == z.value.Instant()
  {
    match z
    case None => None
    case Some(t) => Some(t.local - t.offsetSeconds)
  }

  /** `fromRow`: every column copied, the naive timestamp placed at UTC. */
  function FromRow(row: Row): (e: PrintEntry)
    ensures e.id == Some(row.id) && e.entryType == Some(row.entryType)
    ensures e.sortingField == row.sortingField && e.content == Some(row.content)
    ensures e.created.Some? && e.created.value.offsetSeconds == 0
    ensures e.created.value.Instant() == row.created
  {
    PrintEntry(Some(row.id), Some(ZonedDateTime(row.created, 0)), Some(row.entryType),
      row.sortingField, Some(row.content))
  }

  /** The entries read from a sequence of rows, in order. */
  function EntriesOf(rows: seq<Row>): (es: seq<PrintEntry>)
    ensures |es| == |rows| && forall i :: 0 <= i < |rows| ==> es[i] == FromRow(rows[i])
  {
    seq(|rows|, i requires 0 <= i < |rows| => FromRow(rows[i]))
  }

  /** The NOT NULL columns all have a value in the tuple bound for an entry. */
  predicate HasRequiredColumns(e: PrintEntry)
  {
    e.id.Some? && e.created.Some? && e.entryType.Some? && e.content.Some?
  }

  /** The row that the parameters bound by INSERT or UPDATE for `e` describe. */
  function ToRow(e: PrintEntry): (r: Row)
    requires HasRequiredColumns(e)
    ensures r.id == e.id.value && r.entryType == e.entryType.value
    ensures r.sortingField == e.sortingField && r.content == e.content.value
    ensures Some(r.created) == ToLocalDateTime(e.created)
  {
    Row(e.id.value, ToLocalDateTime(e.created).value, e.entryType.value, e.sortingField, e.content.value)
  }

  /**
   * Writing an entry and reading its row back yields the same id, type,
   * sorting field and content, and the same instant for created, now at UTC.
   */
  lemma RowRoundTrip(e: PrintEntry)
    requires HasRequiredColumns(e)
    ensures FromRow(ToRow(e)).id == e.id
    ensures FromRow(ToRow(e)).entryType == e.entryType
    ensures FromRow(ToRow(e)).sortingField == e.sortingField
    ensures FromRow(ToRow(e)).content == e.content
    ensures FromRow(ToRow(e)).created.value.Instant() == e.created.value.Instant()
    ensures FromRow(ToRow(e)).created.value.offsetSeconds == 0
  {
  }

  /** An entry already at UTC comes back unchanged. */
  lemma RowRoundTripUtc(e: PrintEntry)
    requires HasRequiredColumns(e) && e.created.value.offsetSeconds == 0
    ensures FromRow(ToRow(e)) == e
  {
  }
}

/** The exceptions that cross the service's layers. */
module Failures {

  import opened Wrappers

  datatype Failure =
    | NotFound                             // NotFoundException
    | EntryFailure(reason: string)         // EntryException
    | PgFailure(pgMessage: string)         // PgException raised by the database
    | OtherFailure(detail: Option<string>) // any other Throwable, message possibly null
  {
    /** `Throwable.getMessage`; the no-argument NotFoundException carries none. */
    function GetMessage(): Option<string>
    {
      match this
      case NotFound => None
      case EntryFailure(m) => Some(m)
      case PgFailure(m) => Some(m)
      case OtherFailure(m) => m
    }
  }
}
