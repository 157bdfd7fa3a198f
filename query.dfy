/**
 * `createSqlQuery`: the CQL query is handed to the CQL-to-SQL library with
 * the four searchable fields, and the SQL text of the listing query and the
 * FROM ... WHERE fragment shared with the count query are assembled from the
 * where and order-by clauses the library returns.
 */
module Query {

  import opened Wrappers
  import opened Text
  import opened Failures

  /** How the library treats a field: UUID, exact-match text, text, timestamp. */
  datatype FieldKind = UuidField | ExactTextField | TextField | TimestampField

  /** A searchable field: its CQL name, its SQL column and its kind. */
  datatype CqlField = CqlField(name: string, column: string, kind: FieldKind)

  /** The field definitions given to the library, in the order they are added. */
  const Definition: seq<CqlField> := [
    CqlField("id", "id", UuidField),
    CqlField("type", "type", ExactTextField),
    CqlField("created", "created", TimestampField),
    CqlField("sortingField", "sorting_field", TextField)
  ]

  /** What the library produces for a CQL query: an optional where and an optional order-by clause. */
  datatype PgCqlQuery = PgCqlQuery(whereClause: Option<string>, orderByClause: Option<string>)

  /**
   * The library's parser, a black box: the field definitions and the query
   * (None when absent) give the clauses or an exception.
   */
  type CqlParser = (seq<CqlField>, Option<string>) -> Result<PgCqlQuery, Failure>

  /** The pair `createSqlQuery` returns: the listing query and its FROM ... WHERE fragment. */
  datatype SqlQuery = SqlQuery(items: string, from: string)

  function WherePart(q: PgCqlQuery): string
  {
    match q.whereClause
    case None => "1 = 1"
    case Some(w) => w
  }

  function OrderByPart(q: PgCqlQuery): string
  {
    match q.orderByClause
    case None => ""
    case Some(o) => " ORDER BY " + o
  }

  function PagingPart(offset: int, limit: int): string
  {
    " LIMIT " + IntToString(limit) + " OFFSET " + IntToString(offset)
  }

  /**
   * The SQL text for a parsed query on the given table: the FROM fragment
   * is the table and the where clause ("1 = 1" when there is none); the
   * listing selects from it, adds ORDER BY exactly when there is a sort
   * clause, and ends in LIMIT and OFFSET (read back by `PagingReadsBack`).
   */
  function SqlOf(table: string, q: PgCqlQuery, offset: int, limit: int): (r: SqlQuery)
    ensures q.whereClause.None? ==> r.from == table + " WHERE 1 = 1"
    ensures q.whereClause.Some? ==> r.from == table + " WHERE " + q.whereClause.value
    ensures StartsWith(r.items, "SELECT * FROM " + r.from)
    ensures q.orderByClause.Some? ==> StartsWith(r.items, "SELECT * FROM " + r.from + " ORDER BY " + q.orderByClause.value)
    ensures q.orderByClause.None? ==> StartsWith(r.items, "SELECT * FROM " + r.from + " LIMIT ")
  {
    var from := table + " WHERE " + WherePart(q);
    var select := "SELECT * FROM " + from;
    var paging := PagingPart(offset, limit);
    match q.orderByClause
    case None =>
      LimitFollows(select, offset, limit);
      SqlQueryOf(select, "", paging, from)
    case Some(o) =>
      assert select + (" ORDER BY " + o) == select + " ORDER BY " + o;
      SqlQueryOf(select, " ORDER BY " + o, paging, from)
  }

  /** The paging part starts with ` LIMIT `, whatever precedes it. */
  lemma LimitFollows(head: string, offset: int, limit: int)
    ensures StartsWith(head + PagingPart(offset, limit), head + " LIMIT ")
  {
    var numbers := IntToString(limit) + " OFFSET ";
    var rest := numbers + IntToString(offset);
    assert PagingPart(offset, limit) == " LIMIT " + rest by {
      assert " LIMIT " + IntToString(limit) + " OFFSET " == " LIMIT " + numbers;
    }
    StartsWithRegroup(head, " LIMIT ", rest);
  }

  /** Assembles the listing query from its three parts, keeping the first as a prefix. */
  function SqlQueryOf(select: string, orderBy: string, paging: string, from: string): (r: SqlQuery)
    ensures r.from == from && r.items == select + orderBy + paging
    ensures StartsWith(r.items, select) && StartsWith(r.items, select + orderBy)
    ensures orderBy == "" ==> r.items == select + paging
  {
    StartsWithConcat(select + orderBy, paging);
    assert select + orderBy + paging == select + (orderBy + paging);
    StartsWithConcat(select, orderBy + paging);
    SqlQuery(select + orderBy + paging, from)
  }

  /**
   * `createSqlQuery`: parsing comes first, and a parse failure is the
   * result, with no SQL produced.
   */
  function CreateSqlQuery(table: string, parse: CqlParser, cql: Option<string>, offset: int, limit: int)
    : (r: Result<SqlQuery, Failure>)
    ensures parse(Definition, cql).Failure? <==> r.Failure?
    ensures r.Failure? ==> r.error == parse(Definition, cql).error
    ensures r.Success? ==> r.value == SqlOf(table, parse(Definition, cql).value, offset, limit)
  {
    match parse(Definition, cql)
    case Failure(e) => Failure(e)
    case Success(q) => Success(SqlOf(table, q, offset, limit))
  }

  /** The count query built in `getEntries` from the shared fragment. */
  function CountQuery(sql: SqlQuery): (count: string)
    ensures StartsWith(count, "SELECT COUNT(*) FROM ")
    ensures count[|"SELECT COUNT(*) FROM "|..] == sql.from
  {
    StartsWithConcat("SELECT COUNT(*) FROM ", sql.from);
    "SELECT COUNT(*) FROM " + sql.from
  }

  /** A missing where clause selects every row. */
  lemma MissingWhereMatchesAll(table: string, q: PgCqlQuery, offset: int, limit: int)
    requires q.whereClause.None?
    ensures SqlOf(table, q, offset, limit).from == table + " WHERE 1 = 1"
  {
  }

  /** ORDER BY appears exactly when the library returned a sort clause. */
  lemma OrderByOnlyWithSort(table: string, q: PgCqlQuery, offset: int, limit: int)
    ensures var sql := SqlOf(table, q, offset, limit);
      q.orderByClause.None? ==> sql.items == "SELECT * FROM " + sql.from + PagingPart(offset, limit)
    ensures var sql := SqlOf(table, q, offset, limit);
      q.orderByClause.Some? ==>
        sql.items == "SELECT * FROM " + sql.from + " ORDER BY " + q.orderByClause.value + PagingPart(offset, limit)
  {
  }

  /**
   * The count query has the listing query's FROM ... WHERE fragment and no
   * order, limit or offset, so it is the same for every page of one query.
   */
  lemma CountQueryIgnoresPaging(table: string, q: PgCqlQuery, q': PgCqlQuery,
                                offset: int, limit: int, offset': int, limit': int)
    requires q.whereClause == q'.whereClause
    ensures CountQuery(SqlOf(table, q, offset, limit)) == CountQuery(SqlOf(table, q', offset', limit'))
    ensures var sql := SqlOf(table, q, offset, limit);
      CountQuery(sql) == "SELECT COUNT(*) FROM " + sql.from
      && sql.items[..|"SELECT * FROM " + sql.from|] == "SELECT * FROM " + sql.from
  {
  }

  /** LIMIT and OFFSET as read back from the end of a query text. */
  datatype Paging = Paging(limit: int, offset: int)

  function ReadPaging(sql: string): Option<Paging>
  {
    match SplitTrailingInt(sql)
    case None => None
    case Some((beforeOffset, offset)) =>
      if !EndsWith(beforeOffset, " OFFSET ") then None
      else
        match SplitTrailingInt(beforeOffset[..|beforeOffset| - |" OFFSET "|])
        case None => None
        case Some((beforeLimit, limit)) =>
          if EndsWith(beforeLimit, " LIMIT ") then Some(Paging(limit, offset)) else None
  }

  /** `ReadPaging` succeeds once each of its steps has matched. */
  lemma ReadPagingSteps(sql: string, withOffset: string, offset: int, withLimit: string, limit: int)
    requires SplitTrailingInt(sql) == Some((withOffset, offset)) && EndsWith(withOffset, " OFFSET ")
    requires SplitTrailingInt(withOffset[..|withOffset| - |" OFFSET "|]) == Some((withLimit, limit))
    requires EndsWith(withLimit, " LIMIT ")
    ensures ReadPaging(sql) == Some(Paging(limit, offset))
  {
  }

  /** A text ending in ` LIMIT <limit> OFFSET <offset>` reads back both numbers. */
  lemma {:induction false} ReadPagingOfSuffix(head: string, offset: int, limit: int)
    ensures ReadPaging(head + PagingPart(offset, limit)) == Some(Paging(limit, offset))
  {
    var withLimit := head + " LIMIT ";
    var withOffset := withLimit + IntToString(limit) + " OFFSET ";
    var sql := withOffset + IntToString(offset);
    assert head + PagingPart(offset, limit) == sql;
    assert SplitTrailingInt(sql) == Some((withOffset, offset)) by {
      SplitTrailingIntToString(withOffset, offset);
    }
    var beforeOffset := withOffset[..|withOffset| - |" OFFSET "|];
    assert beforeOffset == withLimit + IntToString(limit);
    assert SplitTrailingInt(beforeOffset) == Some((withLimit, limit)) by {
      SplitTrailingIntToString(withLimit, limit);
    }
    ReadPagingSteps(sql, withOffset, offset, withLimit, limit);
  }

  /**
   * Every listing query ends in `LIMIT <limit> OFFSET <offset>`, and those
   * numbers read back exactly, whatever the where and order-by text.
   */
  lemma {:induction false} PagingReadsBack(table: string, q: PgCqlQuery, offset: int, limit: int)
    ensures ReadPaging(SqlOf(table, q, offset, limit).items) == Some(Paging(limit, offset))
  {
    var sql := SqlOf(table, q, offset, limit);
    ReadPagingOfSuffix("SELECT * FROM " + sql.from + OrderByPart(q), offset, limit);
  }
}
