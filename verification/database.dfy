/**
 * The `SQLite` helper: SQL text built from a table name, column lists and
 * key/value objects, and the database handle that every operation opens on
 * demand. Running a statement is left to the engine, which the model takes as
 * an input: each operation is told what the engine would answer.
 */
module Database {
  import opened Wrappers
  import opened Strings

  datatype TableField = TableField(columnName: string, dataType: string)
  datatype TableInfo = TableInfo(tableName: string, tableFields: seq<TableField>)

  /**
   * An `Item` or `Condition` object as its entries, in key order. Values are
   * already rendered as a template literal renders them (`${v}`).
   */
  type Entries = seq<(string, string)>

  // ---------------------------------------------------------------- createTable

  /** The `reduce` callback: one column definition, closed by `);` after the last field and `,` otherwise. */
  function AppendField(sql: string, field: TableField, index: nat, count: nat): string
  {
    sql + " " + field.columnName + " " + field.dataType + (if index + 1 == count then ");" else ",")
  }

  /** `fields.reduce(AppendField, sql)` from position `from` on. */
  function ReduceFields(sql: string, fields: seq<TableField>, from: nat): string
    decreases |fields| - from
  {
    if from >= |fields| then sql
    else ReduceFields(AppendField(sql, fields[from], from, |fields|), fields, from + 1)
  }

  /** The statement `createTable` runs. */
  function CreateTableSql(tableName: string, fields: seq<TableField>): string
  {
    ReduceFields("CREATE TABLE IF NOT EXISTS " + tableName + "(", fields, 0)
  }

  /** ` <column> <type>` */
  function ColumnDefinition(f: TableField): string
  {
    " " + f.columnName + " " + f.dataType
  }

  function ColumnDefinitions(fields: seq<TableField>): (defs: seq<string>)
    ensures |defs| == |fields| && forall i :: 0 <= i < |fields| ==> defs[i] == ColumnDefinition(fields[i])
  {
    seq(|fields|, i requires 0 <= i < |fields| => ColumnDefinition(fields[i]))
  }

  lemma {:induction false} ReduceFieldsShape(sql: string, fields: seq<TableField>, from: nat)
    requires from < |fields|
    ensures ReduceFields(sql, fields, from) == sql + Join(",", ColumnDefinitions(fields)[from..]) + ");"
    decreases |fields| - from
  {
    var defs := ColumnDefinitions(fields);
    if from + 1 == |fields| {
      assert defs[from..] == [ColumnDefinition(fields[from])];
      assert ReduceFields(sql, fields, from) == AppendField(sql, fields[from], from, |fields|);
    } else {
      var next := AppendField(sql, fields[from], from, |fields|);
      ReduceFieldsShape(next, fields, from + 1);
      assert next == sql + defs[from] + ",";
      assert defs[from..][1..] == defs[from + 1..];
      assert Join(",", defs[from..]) == defs[from] + "," + Join(",", defs[from + 1..]);
    }
  }

  /**
   * `createTable` yields the header, then the column definitions separated by `,`
   * and closed by `);`; with no fields the statement is the bare header.
   */
  lemma CreateTableShape(tableName: string, fields: seq<TableField>)
    ensures CreateTableSql(tableName, fields) ==
      "CREATE TABLE IF NOT EXISTS " + tableName + "(" +
      (if fields == [] then "" else Join(",", ColumnDefinitions(fields)) + ");")
  {
    if fields != [] {
      ReduceFieldsShape("CREATE TABLE IF NOT EXISTS " + tableName + "(", fields, 0);
      assert ColumnDefinitions(fields)[0..] == ColumnDefinitions(fields);
    }
  }

  // ---------------------------------------------------------------- dropTable

  function DropTableSql(tableName: string): string
  {
    "DROP TABLE " + tableName + ";"
  }

  // ---------------------------------------------------------------- insertItem

  /** `Object.keys(item)` */
  function Keys(item: Entries): seq<string>
  {
    seq(|item|, i requires 0 <= i < |item| => item[i].0)
  }

  /** `Object.values(item)`: in the same order as the keys. */
  function Values(item: Entries): seq<string>
  {
    seq(|item|, i requires 0 <= i < |item| => item[i].1)
  }

  /** `keys.map(() => '?').join(', ')` for `n` keys. */
  function Placeholders(n: nat): string
  {
    Join(", ", seq(n, _ => "?"))
  }

  /** There is one `?` per key in the placeholder list. */
  lemma {:induction false} PlaceholderCount(n: nat)
    ensures CountChar(Placeholders(n), '?') == n
  {
    if n > 1 {
      PlaceholderCount(n - 1);
      assert seq(n, _ => "?") == seq(n - 1, _ => "?") + ["?"];
      JoinSnoc(", ", seq(n - 1, _ => "?"), "?");
      CountCharAppend(Placeholders(n - 1), ", ", '?');
      CountCharAppend(Placeholders(n - 1) + ", ", "?", '?');
    }
  }

  /** The statement `insertItem` runs; it is sent together with `Values(item)`. */
  function InsertSql(tableName: string, item: Entries): string
  {
    "INSERT INTO " + tableName + " (" + Join(", ", Keys(item)) + ") VALUES (" + Placeholders(|item|) + ")"
  }

  /**
   * The placeholder count equals both the number of keys and the number of bound
   * values, and value `i` is the value of column `i`.
   */
  lemma InsertPlaceholdersMatchValues(item: Entries)
    ensures CountChar(Placeholders(|item|), '?') == |Keys(item)| == |Values(item)|
    ensures forall i :: 0 <= i < |item| ==> item[i] == (Keys(item)[i], Values(item)[i])
  {
    PlaceholderCount(|item|);
  }

  /**
   * The statement names the columns in entry order: one entry gives one column and
   * one `?` bound to its value, and the columns of two lists of entries are the
   * first list's columns, a comma, then the second's, with the values in the same order.
   */
  lemma InsertColumnsInOrder(tableName: string, k: string, v: string, a: Entries, b: Entries)
    ensures InsertSql(tableName, [(k, v)]) == "INSERT INTO " + tableName + " (" + k + ") VALUES (?)"
    ensures Values([(k, v)]) == [v]
    ensures a != [] && b != [] ==>
      Join(", ", Keys(a + b)) == Join(", ", Keys(a)) + ", " + Join(", ", Keys(b)) &&
      Values(a + b) == Values(a) + Values(b)
  {
    if a != [] && b != [] {
      assert Keys(a + b) == Keys(a) + Keys(b);
      JoinAppend(", ", Keys(a), Keys(b));
    }
  }

  // ---------------------------------------------------------------- WHERE and SET clauses

  /** `${k}='${v}'` (values are not quoted or escaped). */
  function Assignment(entry: (string, string)): string
  {
    entry.0 + "='" + entry.1 + "'"
  }

  function Assignments(entries: Entries): seq<string>
  {
    seq(|entries|, i requires 0 <= i < |entries| => Assignment(entries[i]))
  }

  /** `Object.entries(entries).map(Assignment).join(sep)` */
  function Clause(entries: Entries, sep: string): string
  {
    Join(sep, Assignments(entries))
  }

  /** One entry gives one `k='v'` pair. */
  lemma ClauseSingle(k: string, v: string, sep: string)
    ensures Clause([(k, v)], sep) == k + "='" + v + "'"
  {
  }

  /** Entries keep their order: the clause of two lists is their clauses joined by one separator. */
  lemma ClauseAppend(a: Entries, b: Entries, sep: string)
    requires a != [] && b != []
    ensures Clause(a + b, sep) == Clause(a, sep) + sep + Clause(b, sep)
  {
    assert Assignments(a + b) == Assignments(a) + Assignments(b);
    JoinAppend(sep, Assignments(a), Assignments(b));
  }

  /** `condition && Object.keys(condition).length > 0` */
  predicate HasCondition(condition: Option<Entries>)
  {
    condition.Some? && |condition.value| > 0
  }

  // ---------------------------------------------------------------- deleteItem

  /** The statement `deleteItem` runs: pairs joined by a lower-case ` and `. */
  function DeleteSql(tableName: string, condition: Option<Entries>): string
  {
    if HasCondition(condition) then
      "DELETE FROM " + tableName + " WHERE " + Clause(condition.value, " and ") + ";"
    else
      "DELETE FROM " + tableName + ";"
  }

  // ---------------------------------------------------------------- updateItem

  /** ` WHERE <pairs joined by AND>;` or just `;` */
  function WhereTail(condition: Option<Entries>): (tail: string)
    ensures EndsWith(tail, ";")
  {
    if HasCondition(condition) then " WHERE " + Clause(condition.value, " AND ") + ";" else ";"
  }

  /**
   * `deleteItem` ends its statement as `updateItem` and `queryItems` do (the
   * `WhereTail`) for no condition and for a one-pair condition, and every delete
   * statement ends in `;`.
   */
  lemma DeleteMatchesWhereTail(tableName: string, condition: Option<Entries>, k: string, v: string)
    ensures !HasCondition(condition) ==> DeleteSql(tableName, condition) == "DELETE FROM " + tableName + WhereTail(condition)
    ensures DeleteSql(tableName, Some([(k, v)])) == "DELETE FROM " + tableName + WhereTail(Some([(k, v)]))
    ensures EndsWith(DeleteSql(tableName, condition), ";")
  {
    ClauseSingle(k, v, " and ");
    ClauseSingle(k, v, " AND ");
    if HasCondition(condition) {
      EndsWithAppended("DELETE FROM " + tableName + " WHERE " + Clause(condition.value, " and "), ";");
    } else {
      EndsWithAppended("DELETE FROM " + tableName, ";");
    }
  }

  /**
   * The lower-case ` and ` shows from two pairs on: the condition's pairs are
   * joined by it in entry order.
   */
  lemma DeleteJoinsInOrder(tableName: string, a: Entries, b: Entries)
    requires a != [] && b != []
    ensures DeleteSql(tableName, Some(a + b)) ==
      "DELETE FROM " + tableName + " WHERE " + Clause(a, " and ") + " and " + Clause(b, " and ") + ";"
  {
    ClauseAppend(a, b, " and ");
  }

  /** The statement `updateItem` runs, taking its condition as an object like the other operations. */
  function UpdateSql(tableName: string, item: Entries, condition: Option<Entries>): string
  {
    "UPDATE " + tableName + " SET " + Clause(item, ", ") + WhereTail(condition)
  }

  /** `updateItem`'s `sqlStr` as it grows by `+=`. */
  method BuildUpdateSql(tableName: string, item: Entries, condition: Option<Entries>) returns (sqlStr: string)
    ensures sqlStr == UpdateSql(tableName, item, condition)
  {
    var setClause := Clause(item, ", ");
    sqlStr := "UPDATE " + tableName + " SET " + setClause;
    if HasCondition(condition) {
      var where := Clause(condition.value, " AND ");
      sqlStr := sqlStr + " WHERE " + where + ";";
    } else {
      sqlStr := sqlStr + ";";
    }
  }

  /**
   * The SET clause lists the item's pairs in entry order, joined by `, `; the WHERE
   * clause appears exactly when a non-empty condition is given; the statement ends in `;`.
   */
  lemma UpdateShape(tableName: string, item: Entries, condition: Option<Entries>)
    ensures EndsWith(UpdateSql(tableName, item, condition), ";")
    ensures !HasCondition(condition) ==>
      UpdateSql(tableName, item, condition) == "UPDATE " + tableName + " SET " + Clause(item, ", ") + ";"
    ensures HasCondition(condition) ==>
      UpdateSql(tableName, item, condition) ==
        "UPDATE " + tableName + " SET " + Clause(item, ", ") + " WHERE " + Clause(condition.value, " AND ") + ";"
  {
    var s := UpdateSql(tableName, item, condition);
    var tail := WhereTail(condition);
    assert s[|s| - |tail|..] == tail;
  }

  /**
   * `updateItem` declares its condition as `Condition[]`. Given an array, the
   * entries are the array's indices and the condition objects, rendered as
   * `[object Object]`: the WHERE clause names index columns and loses every key.
   */
  function ArrayConditionClause(conditions: seq<Entries>): string
  {
    Join(" AND ", seq(|conditions|, i requires 0 <= i < |conditions| => NatToDecimal(i) + "='[object Object]'"))
  }

  /** The as-written array form turns `[{id: '7'}]` into `0='[object Object]'`; the object form gives `id='7'`. */
  lemma ArrayConditionLosesKeys()
    ensures ArrayConditionClause([[("id", "7")]]) == "0='[object Object]'"
    ensures Clause([("id", "7")], " AND ") == "id='7'"
  {
    assert seq(1, i requires 0 <= i < 1 => NatToDecimal(i) + "='[object Object]'") == [NatToDecimal(0) + "='[object Object]'"];
  }

  // ---------------------------------------------------------------- queryItems

  function QuerySql(tableName: string, condition: Option<Entries>): string
  {
    "SELECT DISTINCT * FROM " + tableName + WhereTail(condition)
  }

  /** `queryItems`'s `sqlStr` as it grows by `+=`. */
  method BuildQuerySql(tableName: string, condition: Option<Entries>) returns (sqlStr: string)
    ensures sqlStr == QuerySql(tableName, condition)
  {
    sqlStr := "SELECT DISTINCT * FROM ";
    sqlStr := sqlStr + tableName;
    if HasCondition(condition) {
      var where := Clause(condition.value, " AND ");
      sqlStr := sqlStr + " WHERE " + where + ";";
    } else {
      sqlStr := sqlStr + ";";
    }
  }

  // ---------------------------------------------------------------- selectItems

  /** `columns`: the literal `'*'` or a list of column names. */
  datatype Columns = Star | Named(names: seq<string>)

  function ColumnList(columns: Columns): string
  {
    match columns
    case Star => "*"
    case Named(names) => Join(", ", names)
  }

  /** A JavaScript number argument is truthy when given and not zero. */
  predicate TruthyNumber(n: Option<int>)
  {
    n.Some? && n.value != 0
  }

  /** A string argument is truthy when given and not empty. */
  predicate TruthyString(s: Option<string>)
  {
    s.Some? && s.value != ""
  }

  /**
   * The `LIMIT`/`OFFSET` pair for page `pagination` of `perPageNum` rows, when both
   * are truthy: the limit exceeds the offset by exactly one page.
   */
  function Pagination(pagination: Option<int>, perPageNum: Option<int>): (r: Option<(int, int)>)
    ensures r.Some? <==> TruthyNumber(pagination) && TruthyNumber(perPageNum)
    ensures r.Some? ==> r.value.0 - r.value.1 == perPageNum.value
    ensures r.Some? ==> r.value.1 == (pagination.value - 1) * perPageNum.value
  {
    if TruthyNumber(pagination) && TruthyNumber(perPageNum) then
      Some((pagination.value * perPageNum.value, (pagination.value - 1) * perPageNum.value))
    else None
  }

  /** ` WHERE <pairs joined by AND>;` when there is a condition; the `;` is part of it. */
  function SelectWhere(condition: Option<Entries>): string
  {
    if HasCondition(condition) then " WHERE " + Clause(condition.value, " AND ") + ";" else ""
  }

  function OrderBy(orderby: Option<string>): string
  {
    if TruthyString(orderby) then " ORDER BY " + orderby.value else ""
  }

  function Limit(pagination: Option<int>, perPageNum: Option<int>): string
  {
    match Pagination(pagination, perPageNum)
    case None => ""
    case Some((limit, offset)) => " LIMIT " + IntToDecimal(limit) + " OFFSET " + IntToDecimal(offset)
  }

  function SelectSql(tableName: string, columns: Columns, condition: Option<Entries>,
                     pagination: Option<int>, perPageNum: Option<int>, orderby: Option<string>): string
  {
    "SELECT DISTINCT " + ColumnList(columns) + " FROM " + tableName +
    SelectWhere(condition) + OrderBy(orderby) + Limit(pagination, perPageNum) + ";"
  }

  /** `selectItems`'s `sqlStr` as it grows by `+=`. */
  method BuildSelectSql(tableName: string, columns: Columns, condition: Option<Entries>,
                        pagination: Option<int>, perPageNum: Option<int>, orderby: Option<string>)
    returns (sqlStr: string)
    ensures sqlStr == SelectSql(tableName, columns, condition, pagination, perPageNum, orderby)
  {
    sqlStr := "SELECT DISTINCT ";
    if columns.Star? {
      sqlStr := sqlStr + "*";
    } else {
      sqlStr := sqlStr + Join(", ", columns.names);
    }
    sqlStr := sqlStr + " FROM " + tableName;
    assert sqlStr == "SELECT DISTINCT " + ColumnList(columns) + " FROM " + tableName;
    ghost var head := sqlStr;
    if HasCondition(condition) {
      var where := Clause(condition.value, " AND ");
      sqlStr := sqlStr + (" WHERE " + where + ";");
    }
    assert sqlStr == head + SelectWhere(condition);
    ghost var withWhere := sqlStr;
    if TruthyString(orderby) {
      sqlStr := sqlStr + (" ORDER BY " + orderby.value);
    }
    assert sqlStr == withWhere + OrderBy(orderby);
    ghost var withOrder := sqlStr;
    if TruthyNumber(pagination) && TruthyNumber(perPageNum) {
      var limit := pagination.value * perPageNum.value;
      var offset := (pagination.value - 1) * perPageNum.value;
      sqlStr := sqlStr + (" LIMIT " + IntToDecimal(limit) + " OFFSET " + IntToDecimal(offset));
    }
    assert sqlStr == withOrder + Limit(pagination, perPageNum);
    sqlStr := sqlStr + ";";
  }

  /**
   * `selectItems` always ends in `;`. With a condition, the WHERE part carries its
   * own `;`, so any ORDER BY and LIMIT follow a terminator and the statement ends
   * in a second one.
   */
  lemma SelectShape(tableName: string, columns: Columns, condition: Option<Entries>,
                    pagination: Option<int>, perPageNum: Option<int>, orderby: Option<string>)
    ensures EndsWith(SelectSql(tableName, columns, condition, pagination, perPageNum, orderby), ";")
    ensures HasCondition(condition) ==>
      SelectSql(tableName, columns, condition, pagination, perPageNum, orderby) ==
        "SELECT DISTINCT " + ColumnList(columns) + " FROM " + tableName + " WHERE " +
        Clause(condition.value, " AND ") + ";" +
        OrderBy(orderby) + Limit(pagination, perPageNum) + ";"
  {
    var head := "SELECT DISTINCT " + ColumnList(columns) + " FROM " + tableName;
    var body := head + SelectWhere(condition) + OrderBy(orderby) + Limit(pagination, perPageNum);
    EndsWithAppended(body, ";");
    if HasCondition(condition) {
      var clause := Clause(condition.value, " AND ");
      assert SelectWhere(condition) == " WHERE " + clause + ";";
      assert head + SelectWhere(condition) == head + " WHERE " + clause + ";";
    }
  }

  /** With page and page size given and nothing else, the statement ends `LIMIT p*n OFFSET (p-1)*n;`. */
  lemma SelectPaged(tableName: string, columns: Columns, p: int, n: int)
    requires p != 0 && n != 0
    ensures SelectSql(tableName, columns, None, Some(p), Some(n), None) ==
      "SELECT DISTINCT " + ColumnList(columns) + " FROM " + tableName +
      " LIMIT " + IntToDecimal(p * n) + " OFFSET " + IntToDecimal((p - 1) * n) + ";"
  {
  }

  /**
   * `queryItems` is `selectItems` of every column with no paging or order, except
   * that with a condition `selectItems` ends in a doubled `;`.
   */
  lemma QueryIsSelectAll(tableName: string, condition: Option<Entries>)
    ensures SelectSql(tableName, Star, condition, None, None, None) ==
      QuerySql(tableName, condition) + (if HasCondition(condition) then ";" else "")
  {
  }

  // ---------------------------------------------------------------- the helper object

  /** The open database (the model keeps only which file it belongs to). */
  datatype DbHandle = DbHandle(name: string)

  /** One row of a result, column to rendered value. */
  type Row = map<string, string>

  datatype ResultSet = ResultSet(insertId: int, rowsAffected: int, rows: seq<Row>)

  /** `SQLite.emptyResultSet`: what the read and update operations return on error. */
  const EmptyResultSet: ResultSet := ResultSet(0, 0, [])

  /** What the engine answers for one statement: a result, or an error it throws. */
  datatype Execution = Executed(result: ResultSet) | ExecutionError

  class SQLite {
    var db: Option<DbHandle>
    const databaseName: string
    const databaseLocation: string

    constructor (databaseName: string, databaseLocation: string)
      ensures this.databaseName == databaseName && this.databaseLocation == databaseLocation
      ensures db == None
    {
      this.databaseName := databaseName;
      this.databaseLocation := databaseLocation;
      db := None;
    }

    /** `open`: on success the handle is (re)placed; a failed open is logged and changes nothing. */
    method Open(opens: bool)
      modifies this
      ensures db == if opens then Some(DbHandle(databaseName)) else old(db)
    {
      if opens {
        db := Some(DbHandle(databaseName));
      }
    }

    /** `close`: the handle is cleared only after a successful close; with no handle nothing happens. */
    method Close(closes: bool)
      modifies this
      ensures db == if old(db).Some? && closes then None else old(db)
    {
      if db.Some? {
        if closes {
          db := None;
        }
      }
    }

    /** `if (!this.db) await this.open()`, which every operation does first. */
    method EnsureOpen(opens: bool)
      modifies this
      ensures db == if old(db).None? && opens then Some(DbHandle(databaseName)) else old(db)
    {
      if db.None? {
        Open(opens);
      }
    }

    /**
     * What an operation returns for a statement: the engine's result, or the empty
     * result set when the engine throws or there is still no handle (the call on a
     * missing handle throws inside the same `try`).
     */
    function Answer(engine: Execution): (res: ResultSet)
      reads this
      ensures db.None? || engine.ExecutionError? ==> res == EmptyResultSet
      ensures db.Some? && engine.Executed? ==> res == engine.result
    {
      if db.Some? && engine.Executed? then engine.result else EmptyResultSet
    }

    method CreateTable(tableInfo: TableInfo, opens: bool, engine: Execution) returns (sql: string, res: ResultSet)
      modifies this
      ensures db == if old(db).None? && opens then Some(DbHandle(databaseName)) else old(db)
      ensures sql == CreateTableSql(tableInfo.tableName, tableInfo.tableFields)
      ensures res == Answer(engine)
    {
      EnsureOpen(opens);
      sql := CreateTableSql(tableInfo.tableName, tableInfo.tableFields);
      res := Answer(engine);
    }

    method DropTable(tableName: string, opens: bool, engine: Execution) returns (sql: string, res: ResultSet)
      modifies this
      ensures db == if old(db).None? && opens then Some(DbHandle(databaseName)) else old(db)
      ensures sql == DropTableSql(tableName)
      ensures res == Answer(engine)
    {
      EnsureOpen(opens);
      sql := DropTableSql(tableName);
      res := Answer(engine);
    }

    /** `insertItem`: the statement, the values bound to it, and `true` exactly when it ran. */
    method InsertItem(tableName: string, item: Entries, opens: bool, engine: Execution)
      returns (sql: string, values: seq<string>, ok: bool)
      modifies this
      ensures db == if old(db).None? && opens then Some(DbHandle(databaseName)) else old(db)
      ensures sql == InsertSql(tableName, item) && values == Values(item)
      ensures ok <==> db.Some? && engine.Executed?
    {
      EnsureOpen(opens);
      var keys := Keys(item);
      values := Values(item);
      var placeholders := Placeholders(|keys|);
      sql := "INSERT INTO " + tableName + " (" + Join(", ", keys) + ") VALUES (" + placeholders + ")";
      ok := db.Some? && engine.Executed?;
    }

    /** `deleteItem`: `true` exactly when the statement ran, `false` on any error. */
    method DeleteItem(tableName: string, condition: Option<Entries>, opens: bool, engine: Execution)
      returns (sql: string, ok: bool)
      modifies this
      ensures db == if old(db).None? && opens then Some(DbHandle(databaseName)) else old(db)
      ensures sql == DeleteSql(tableName, condition)
      ensures ok <==> db.Some? && engine.Executed?
    {
      EnsureOpen(opens);
      sql := DeleteSql(tableName, condition);
      ok := db.Some? && engine.Executed?;
    }

    method UpdateItem(tableName: string, item: Entries, condition: Option<Entries>, opens: bool, engine: Execution)
      returns (sql: string, res: ResultSet)
      modifies this
      ensures db == if old(db).None? && opens then Some(DbHandle(databaseName)) else old(db)
      ensures sql == UpdateSql(tableName, item, condition)
      ensures res == Answer(engine)
    {
      EnsureOpen(opens);
      sql := BuildUpdateSql(tableName, item, condition);
      res := Answer(engine);
    }

    method QueryItems(tableName: string, condition: Option<Entries>, opens: bool, engine: Execution)
      returns (sql: string, res: ResultSet)
      modifies this
      ensures db == if old(db).None? && opens then Some(DbHandle(databaseName)) else old(db)
      ensures sql == QuerySql(tableName, condition)
      ensures res == Answer(engine)
    {
      EnsureOpen(opens);
      sql := BuildQuerySql(tableName, condition);
      res := Answer(engine);
    }

    method SelectItems(tableName: string, columns: Columns, condition: Option<Entries>,
                       pagination: Option<int>, perPageNum: Option<int>, orderby: Option<string>,
                       opens: bool, engine: Execution)
      returns (sql: string, res: ResultSet)
      modifies this
      ensures db == if old(db).None? && opens then Some(DbHandle(databaseName)) else old(db)
      ensures sql == SelectSql(tableName, columns, condition, pagination, perPageNum, orderby)
      ensures res == Answer(engine)
    {
      EnsureOpen(opens);
      sql := BuildSelectSql(tableName, columns, condition, pagination, perPageNum, orderby);
      res := Answer(engine);
    }
  }
}
