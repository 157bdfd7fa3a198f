/**
 * `PrintStorage`: one tenant's `printing` table and the CRUD operations on
 * it. The table is a map from id to row. What the database answers to an
 * INSERT, UPDATE or DELETE (an affected-row count, or an error carrying a
 * SQLSTATE) is computed from the map as Postgres would: NOT NULL columns
 * give 23502, a duplicate primary key 23505. SELECT statements whose text
 * comes from the CQL library are answered by a black-box `Database`.
 */
module Storage {

  import opened Wrappers
  import opened Text
  import opened Entries
  import opened Failures
  import opened Query

  /** What executing a statement reports. */
  datatype DbResult = RowCount(count: nat) | PgError(message: string)

  /** The database's answer to a SELECT, as a function of its SQL text. */
  type Database = string -> Result<seq<Row>, Failure>

  const NOT_NULL_DETAIL := "ERROR: null value" + " violates not-null" + " constraint"
  const UNIQUE_DETAIL := "ERROR: duplicate key value violates unique constraint \"printing_pkey\""
  const NOT_NULL_VIOLATION := "23502"
  const UNIQUE_VIOLATION := "23505"

  /** A Postgres error message: its text followed by the SQLSTATE in parentheses. */
  function PgErrorText(detail: string, state: string): string
  {
    detail + " (" + state + ")"
  }

  /** The message names the SQLSTATE it was raised with. */
  lemma PgErrorTextNamesState(detail: string, state: string)
    ensures Contains(PgErrorText(detail, state), "(" + state + ")")
  {
    var s := PgErrorText(detail, state);
    assert OccursAt(s, "(" + state + ")", |detail| + 1);
  }

  /**
   * For a detail text without '(' and a five-character SQLSTATE, the message
   * contains "(23505)" exactly when the SQLSTATE is 23505.
   */
  lemma PgErrorTextUniqueOnlyFor(detail: string, state: string)
    requires '(' !in detail
    requires |state| == 5 && '(' !in state
    ensures Contains(PgErrorText(detail, state), "(23505)") <==> state == UNIQUE_VIOLATION
  {
    var s := PgErrorText(detail, state);
    if state == UNIQUE_VIOLATION {
      PgErrorTextNamesState(detail, state);
      assert "(" + state + ")" == "(23505)";
    } else {
      forall i | 0 <= i <= |s|
        ensures !OccursAt(s, "(23505)", i)
      {
        if i + 7 > |s| {
        } else if i == |detail| + 1 {
          assert s[i..] == "(" + state + ")";
          assert s[i..i + 7] == s[i..];
          assert ("(" + state + ")")[1..6] == state;
          assert s[i..i + 7][1..6] == state;
        } else {
          assert s[i..i + 7][0] == s[i];
          if i < |detail| {
            assert s[i] == detail[i];
          } else {
            assert s[i] == ' ';
          }
        }
      }
    }
  }

  /** What the INSERT of `createEntry` reports on `table`. */
  function InsertResult(table: map<Uuid, Row>, e: PrintEntry): (r: DbResult)
    ensures r.RowCount? <==> HasRequiredColumns(e) && e.id.value !in table
    ensures r.RowCount? ==> r.count == 1
    ensures !HasRequiredColumns(e) ==> r.PgError? && Contains(r.message, "(" + NOT_NULL_VIOLATION + ")")
    ensures HasRequiredColumns(e) && e.id.value in table ==>
      r.PgError? && Contains(r.message, "(" + UNIQUE_VIOLATION + ")")
  {
    PgErrorTextNamesState(NOT_NULL_DETAIL, NOT_NULL_VIOLATION);
    PgErrorTextNamesState(UNIQUE_DETAIL, UNIQUE_VIOLATION);
    if !HasRequiredColumns(e) then PgError(PgErrorText(NOT_NULL_DETAIL, NOT_NULL_VIOLATION))
    else if e.id.value in table then PgError(PgErrorText(UNIQUE_DETAIL, UNIQUE_VIOLATION))
    else RowCount(1)
  }

  /** What the UPDATE ... WHERE id = $1 of `updateEntry` reports; a null id matches no row. */
  function UpdateResult(table: map<Uuid, Row>, e: PrintEntry): (r: DbResult)
    ensures r == RowCount(0) <==> e.id.None? || e.id.value !in table
    ensures r == RowCount(1) <==> e.id.Some? && e.id.value in table && HasRequiredColumns(e)
    ensures r.PgError? ==> Contains(r.message, "(" + NOT_NULL_VIOLATION + ")")
  {
    PgErrorTextNamesState(NOT_NULL_DETAIL, NOT_NULL_VIOLATION);
    if e.id.None? || e.id.value !in table then RowCount(0)
    else if !HasRequiredColumns(e) then PgError(PgErrorText(NOT_NULL_DETAIL, NOT_NULL_VIOLATION))
    else RowCount(1)
  }

  /** `createEntry`'s reading of the INSERT outcome: zero rows is an EntryException. */
  function CreateOutcome(r: DbResult): (o: Result<(), Failure>)
    ensures r.RowCount? && r.count == 0 ==> o == Failure(EntryFailure("Failed to create"))
    ensures r.RowCount? && r.count > 0 ==> o.Success?
    ensures r.PgError? ==> o == Failure(PgFailure(r.message))
  {
    match r
    case RowCount(n) => if n == 0 then Failure(EntryFailure("Failed to create")) else Success(())
    case PgError(m) => Failure(PgFailure(m))
  }

  /**
   * `updateEntry`'s reading of the UPDATE outcome: zero rows, or an error
   * whose message contains "(23505)", become NotFoundException.
   */
  function UpdateOutcome(r: DbResult): (o: Result<(), Failure>)
    ensures o == Failure(NotFound) <==>
      (r.RowCount? && r.count == 0) || (r.PgError? && Contains(r.message, "(23505)"))
    ensures o.Success? <==> r.RowCount? && r.count > 0
    ensures r.PgError? && !Contains(r.message, "(23505)") ==> o == Failure(PgFailure(r.message))
  {
    match r
    case RowCount(n) => if n == 0 then Failure(NotFound) else Success(())
    case PgError(m) => if Contains(m, "(23505)") then Failure(NotFound) else Failure(PgFailure(m))
  }

  /** `deleteEntry`'s reading of the DELETE outcome: zero rows is NotFoundException. */
  function DeleteOutcome(r: DbResult): (o: Result<(), Failure>)
    ensures o == Failure(NotFound) <==> r.RowCount? && r.count == 0
    ensures o.Success? <==> r.RowCount? && r.count > 0
  {
    match r
    case RowCount(n) => if n == 0 then Failure(NotFound) else Success(())
    case PgError(m) => Failure(PgFailure(m))
  }

  /** A unique violation on update collapses into NotFoundException. */
  lemma UniqueViolationOnUpdateIsNotFound(detail: string)
    ensures UpdateOutcome(PgError(PgErrorText(detail, UNIQUE_VIOLATION))) == Failure(NotFound)
  {
    PgErrorTextNamesState(detail, UNIQUE_VIOLATION);
    assert "(" + UNIQUE_VIOLATION + ")" == "(23505)";
  }

  /** On create the same unique violation is a generic database failure, not NotFound or EntryException. */
  lemma DuplicateCreateIsGenericFailure(table: map<Uuid, Row>, e: PrintEntry)
    requires HasRequiredColumns(e) && e.id.value in table
    ensures CreateOutcome(InsertResult(table, e)) == Failure(PgFailure(PgErrorText(UNIQUE_DETAIL, UNIQUE_VIOLATION)))
  {
  }

  /** An update that leaves a NOT NULL column null is a database failure, not NotFound. */
  lemma NullColumnOnUpdateIsNotNotFound(table: map<Uuid, Row>, e: PrintEntry)
    requires e.id.Some? && e.id.value in table && !HasRequiredColumns(e)
    ensures UpdateOutcome(UpdateResult(table, e)) == Failure(PgFailure(PgErrorText(NOT_NULL_DETAIL, NOT_NULL_VIOLATION)))
  {
    PgErrorTextUniqueOnlyFor(NOT_NULL_DETAIL, NOT_NULL_VIOLATION);
  }

  /** The statement `init` runs: idempotent creation of the table and its constraints. */
  function CreateTableStatement(printTable: string): (statement: string)
    ensures StartsWith(statement, "CREATE TABLE IF NOT EXISTS " + printTable + "(")
    ensures EndsWith(statement, ")")
    ensures |statement| == |"CREATE TABLE IF NOT EXISTS " + printTable + "("| + |COLUMN_DEFINITIONS| + 1
    ensures statement[|"CREATE TABLE IF NOT EXISTS " + printTable + "("|..|statement| - 1] == COLUMN_DEFINITIONS
  {
    Framed("CREATE TABLE IF NOT EXISTS " + printTable + "(", COLUMN_DEFINITIONS, ")");
    "CREATE TABLE IF NOT EXISTS " + printTable + "(" + COLUMN_DEFINITIONS + ")"
  }

  /**
   * The table's columns: the id is the primary key, created, type and
   * content are NOT NULL (the columns `HasRequiredColumns` asks for), and
   * sorting_field may be null.
   */
  const COLUMN_DEFINITIONS :=
    "id uuid NOT NULL PRIMARY KEY,"
    + " created TIMESTAMP NOT NULL,"
    + " type VARCHAR NOT NULL,"
    + " sorting_field VARCHAR NULL,"
    + " content VARCHAR NOT NULL"

  class PrintStorage {
    /** `<schema>.printing`. */
    const printTable: string
    /** Whether the table has been created. */
    var provisioned: bool
    /** The rows of the table, by id. */
    var rows: map<Uuid, Row>

    /** Every row is filed under its own id. */
    ghost predicate Valid()
      reads this
    {
      forall id :: id in rows ==> rows[id].id == id
    }

    /** A storage handle on the tenant's schema, over the table as it stands. */
    constructor (schema: string, table: map<Uuid, Row>, alreadyProvisioned: bool)
      requires forall id :: id in table ==> table[id].id == id
      ensures Valid()
      ensures printTable == schema + ".printing" && rows == table && provisioned == alreadyProvisioned
    {
      printTable := schema + ".printing";
      rows := table;
      provisioned := alreadyProvisioned;
    }

    /** `init`: CREATE TABLE IF NOT EXISTS; running it again changes nothing. */
    method Init() returns (statement: string)
      requires Valid()
      modifies this
      ensures Valid()
      ensures statement == CreateTableStatement(printTable)
      ensures provisioned && rows == old(rows)
    {
      statement := CreateTableStatement(printTable);
      provisioned := true;
    }

    /**
     * `createEntry`: the entry is inserted when all NOT NULL columns have a
     * value and its id is new; otherwise the database error is the result
     * and the table is unchanged.
     */
    method CreateEntry(e: PrintEntry) returns (r: Result<(), Failure>)
      requires Valid()
      modifies this
      ensures Valid() && provisioned == old(provisioned)
      ensures r == CreateOutcome(InsertResult(old(rows), e))
      ensures r.Success? <==> HasRequiredColumns(e) && e.id.value !in old(rows)
      ensures r.Success? ==> rows == old(rows)[e.id.value := ToRow(e)]
      ensures r.Failure? ==> rows == old(rows)
    {
      var result := InsertResult(rows, e);
      if result.RowCount? && result.count > 0 {
        rows := rows[e.id.value := ToRow(e)];
      }
      r := CreateOutcome(result);
    }

    /** `getEntryWoCheck`: the entry of the row with this id, or null. */
    method GetEntryWoCheck(id: Uuid) returns (e: Option<PrintEntry>)
      ensures id in rows ==> e == Some(FromRow(rows[id]))
      ensures id !in rows ==> e == None
    {
      if id in rows {
        e := Some(FromRow(rows[id]));
      } else {
        e := None;
      }
    }

    /** `getEntry`: the stored entry, or NotFoundException. */
    method GetEntry(id: Uuid) returns (r: Result<PrintEntry, Failure>)
      requires Valid()
      ensures id in rows ==> r == Success(FromRow(rows[id]))
      ensures id in rows ==> r.value.id == Some(id)
      ensures id !in rows ==> r == Failure(NotFound)
    {
      var e := GetEntryWoCheck(id);
      if e.None? {
        r := Failure(NotFound);
      } else {
        r := Success(e.value);
      }
    }

    /**
     * `deleteEntry`: NotFoundException when the id is absent beforehand;
     * otherwise the DELETE removes that row only.
     */
    method DeleteEntry(id: Uuid) returns (r: Result<(), Failure>)
      requires Valid()
      modifies this
      ensures Valid() && provisioned == old(provisioned)
      ensures id !in old(rows) ==> r == Failure(NotFound) && rows == old(rows)
      ensures id in old(rows) ==> r == Success(()) && rows == old(rows) - {id}
    {
      var found := GetEntryWoCheck(id);
      if found.None? {
        r := Failure(NotFound);
        return;
      }
      var deleted: DbResult := RowCount(1);
      rows := rows - {id};
      r := DeleteOutcome(deleted);
    }

    /**
     * `updateEntry`: a full replace of created, type, sorting_field and
     * content of the row with the entry's id. No matching row (a null id
     * included) is NotFoundException; a null NOT NULL column is a database
     * failure. Other rows and the id never change.
     */
    method UpdateEntry(e: PrintEntry) returns (r: Result<(), Failure>)
      requires Valid()
      modifies this
      ensures Valid() && provisioned == old(provisioned)
      ensures r == UpdateOutcome(UpdateResult(old(rows), e))
      ensures r == Failure(NotFound) <==> e.id.None? || e.id.value !in old(rows)
      ensures r.Success? <==> e.id.Some? && e.id.value in old(rows) && HasRequiredColumns(e)
      ensures r.Success? ==> rows == old(rows)[e.id.value := ToRow(e)]
      ensures r.Failure? ==> rows == old(rows)
    {
      var result := UpdateResult(rows, e);
      if result.RowCount? && result.count > 0 {
        rows := rows[e.id.value := ToRow(e)];
      }
      if result.PgError? {
        PgErrorTextUniqueOnlyFor(NOT_NULL_DETAIL, NOT_NULL_VIOLATION);
      }
      r := UpdateOutcome(result);
    }

    /**
     * `getEntriesByQuery`: the CQL query is translated first (a parse
     * failure is thrown before the database is asked); the rows the database
     * returns for the listing query are converted one by one, in order.
     */
    method GetEntriesByQuery(parse: CqlParser, db: Database, cql: string, offset: int, limit: int)
      returns (r: Result<seq<PrintEntry>, Failure>)
      ensures var sql := CreateSqlQuery(printTable, parse, Some(cql), offset, limit);
        && (sql.Failure? ==> r == Failure(sql.error))
        && (sql.Success? && db(sql.value.items).Failure? ==> r == Failure(db(sql.value.items).error))
        && (sql.Success? && db(sql.value.items).Success? ==>
              var found := db(sql.value.items).value;
              r == Success(EntriesOf(found)))
    {
      var sql := CreateSqlQuery(printTable, parse, Some(cql), offset, limit);
      if sql.Failure? {
        return Failure(sql.error);
      }
      var answer := db(sql.value.items);
      if answer.Failure? {
        return Failure(answer.error);
      }
      var found := answer.value;
      var results: seq<PrintEntry> := [];
      var i := 0;
      while i < |found|
        invariant 0 <= i <= |found|
        invariant results == EntriesOf(found[..i])
      {
        results := results + [FromRow(found[i])];
        i := i + 1;
      }
      assert found[..i] == found;
      r := Success(results);
    }
  }

  /** Get after a successful create returns the entry, its created instant re-expressed at UTC. */
  method CreateThenGet(store: PrintStorage, e: PrintEntry) returns (created: Result<(), Failure>, got: Result<PrintEntry, Failure>)
    requires store.Valid()
    modifies store
    ensures created.Success? ==> HasRequiredColumns(e) && got.Success? && got.value.created.Some?
    ensures created.Success? ==>
      && got.value.id == e.id && got.value.entryType == e.entryType
      && got.value.sortingField == e.sortingField && got.value.content == e.content
      && got.value.created.value.Instant() == e.created.value.Instant()
      && got.value.created.value.offsetSeconds == 0
  {
    created := store.CreateEntry(e);
    if created.Success? {
      RowRoundTrip(e);
    }
    got := store.GetEntry(if e.id.Some? then e.id.value else 0);
  }

  /** After a delete, get, update and delete of the same id all fail with NotFoundException. */
  method DeleteThenAccess(store: PrintStorage, id: Uuid, e: PrintEntry)
    returns (got: Result<PrintEntry, Failure>, updated: Result<(), Failure>, deletedAgain: Result<(), Failure>)
    requires store.Valid()
    requires e.id == Some(id)
    modifies store
    ensures got == Failure(NotFound) && updated == Failure(NotFound) && deletedAgain == Failure(NotFound)
    ensures store.rows == old(store.rows) - {id}
  {
    var _ := store.DeleteEntry(id);
    got := store.GetEntry(id);
    updated := store.UpdateEntry(e);
    deletedAgain := store.DeleteEntry(id);
  }
}
