/**
 * The query layer: the failure-swallowing wrappers around the database,
 * the read-only row wrapper QueryResult, and the fluent builder
 * DatabaseQuery whose terminal calls render SQL text and run it.
 *
 * The database itself, the configured table prefix and the string
 * escaping routine are not part of this model: they are parameters.
 */
module Query {
  import opened Wrappers
  import opened Numbers
  import opened Render
  import Tables

  /** What a call into the database layer does: return a value or throw. */
  datatype Reply<T> = Returned(value: T) | Threw

  /** The database layer, as the reply it gives to each SQL text. */
  datatype Database = Database(query: string -> Reply<seq<QueryResult>>, update: string -> Reply<bool>)

  /** executeUpdate: the database's answer, or false when it throws. */
  function ExecuteUpdate(db: Database, sql: string): (ok: bool)
    ensures ok <==> db.update(sql) == Returned(true)
  {
    match db.update(sql)
    case Returned(b) => b
    case Threw => false
  }

  /** executeQuery: the database's rows, or no rows when it throws. */
  function ExecuteQuery(db: Database, sql: string): (rows: seq<QueryResult>)
    ensures db.query(sql).Threw? ==> rows == []
    ensures db.query(sql).Returned? ==> rows == db.query(sql).value
  {
    match db.query(sql)
    case Returned(rs) => rs
    case Threw => []
  }

  // ---------------------------------------------------------------------
  // QueryResult

  function UpperAscii(c: char): char
  {
    if 'a' <= c <= 'z' then (c as int - 32) as char else c
  }

  function LowerAscii(c: char): char
  {
    if 'A' <= c <= 'Z' then (c as int + 32) as char else c
  }

  /** String.equalsIgnoreCase, with the ASCII case mapping. */
  predicate EqualsIgnoreCase(s: string, t: string)
  {
    && |s| == |t|
    && forall i :: 0 <= i < |s| ==>
         s[i] == t[i] || UpperAscii(s[i]) == UpperAscii(t[i]) || LowerAscii(s[i]) == LowerAscii(t[i])
  }

  /**
   * Two strings are equal ignoring case exactly when they agree letter by
   * letter once upper-cased; hence the relation is reflexive and symmetric.
   */
  lemma EqualsIgnoreCaseSpec(s: string, t: string)
    ensures EqualsIgnoreCase(s, t)
        <==> |s| == |t| && forall i :: 0 <= i < |s| ==> UpperAscii(s[i]) == UpperAscii(t[i])
    ensures EqualsIgnoreCase(s, s)
    ensures EqualsIgnoreCase(s, t) <==> EqualsIgnoreCase(t, s)
  {
  }

  /** "1" has no other case, so equalsIgnoreCase("1") is plain equality. */
  lemma EqualsIgnoreCaseOne(s: string)
    ensures EqualsIgnoreCase(s, "1") <==> s == "1"
  {
    if EqualsIgnoreCase(s, "1") {
      assert s[0] == '1' || UpperAscii(s[0]) == '1' || LowerAscii(s[0]) == '1';
    }
  }

  /** One returned row: column name to the raw text of its value. */
  datatype QueryResult = QueryResult(fields: map<string, string>)
  {
    /** The text stored for a column, None (null) when the row has no such column. */
    function AsString(column: string): (r: Option<string>)
      ensures r.Some? <==> column in fields
      ensures r.Some? ==> r.value == fields[column]
    {
      if column in fields then Some(fields[column]) else None
    }

    /** True exactly when the stored text is "1" ignoring case; the column must be present. */
    function AsBoolean(column: string): (r: bool)
      requires column in fields
      ensures r <==> fields[column] == "1"
    {
      EqualsIgnoreCaseOne(fields[column]);
      EqualsIgnoreCase(fields[column], "1")
    }

    /**
     * The stored text parsed as an int; -1 when it is absent, malformed or
     * out of range. Any numeral in range is read as its value, so in
     * particular whatever int was stored in decimal is read back.
     */
    function AsInt(column: string): (r: Int32)
      ensures column !in fields ==> r == -1
      ensures forall n: Int32 {:trigger Decimal(n)} :: column in fields && fields[column] == Decimal(n) ==> r == n
      ensures column in fields && ParseDecimal(fields[column]).Some?
              && -0x8000_0000 <= ParseDecimal(fields[column]).value < 0x8000_0000
              ==> r as int == ParseDecimal(fields[column]).value
      ensures column in fields && !(ParseDecimal(fields[column]).Some?
              && -0x8000_0000 <= ParseDecimal(fields[column]).value < 0x8000_0000)
              ==> r == -1
      ensures r != -1 ==> column in fields && ParseDecimal(fields[column]) == Some(r as int)
    {
      forall n: Int32 | column in fields && fields[column] == Decimal(n) {
        ParseIntOfDecimal(n);
      }
      match ParseInt(AsString(column))
      case Some(n) => n
      case None => -1
    }

    /**
     * The stored text parsed as a long; -1 when it is absent, malformed or
     * out of range. Any numeral in range is read as its value, so in
     * particular whatever long was stored in decimal is read back.
     */
    function AsLong(column: string): (r: Int64)
      ensures column !in fields ==> r == -1
      ensures forall n: Int64 {:trigger Decimal(n)} :: column in fields && fields[column] == Decimal(n) ==> r == n
      ensures column in fields && ParseDecimal(fields[column]).Some?
              && -0x8000_0000_0000_0000 <= ParseDecimal(fields[column]).value < 0x8000_0000_0000_0000
              ==> r as int == ParseDecimal(fields[column]).value
      ensures column in fields && !(ParseDecimal(fields[column]).Some?
              && -0x8000_0000_0000_0000 <= ParseDecimal(fields[column]).value < 0x8000_0000_0000_0000)
              ==> r == -1
      ensures r != -1 ==> column in fields && ParseDecimal(fields[column]) == Some(r as int)
    {
      forall n: Int64 | column in fields && fields[column] == Decimal(n) {
        ParseLongOfDecimal(n);
      }
      match ParseLong(AsString(column))
      case Some(n) => n
      case None => -1
    }

    /** The underlying map: exactly what AsString reads. */
    function AsMap(): (m: map<string, string>)
      ensures forall c :: c in m <==> AsString(c).Some?
      ensures forall c :: c in m ==> AsString(c) == Some(m[c])
    {
      fields
    }
  }

  // ---------------------------------------------------------------------
  // Reading results

  /** The row at a position of the result list, None (null) outside it. */
  function RowAt(rows: seq<QueryResult>, index: int): (r: Option<QueryResult>)
    ensures r.Some? <==> 0 <= index < |rows|
    ensures r.Some? ==> r.value == rows[index]
  {
    if 0 <= index < |rows| then Some(rows[index]) else None
  }

  /**
   * What `sum` reads back: nothing (the source returns 0) when there is no
   * row or the first row has no `temp` value; otherwise the text of `temp`,
   * whose conversion to a double is not part of this model.
   */
  datatype SumResult = NoSum | TempText(text: string)

  function FirstTemp(rows: seq<QueryResult>): (s: SumResult)
    ensures rows == [] ==> s == NoSum
    ensures s.TempText? <==> rows != [] && "temp" in rows[0].fields
    ensures s.TempText? ==> s.text == rows[0].fields["temp"]
  {
    if rows == [] then NoSum
    else match rows[0].AsString("temp")
      case Some(t) => TempText(t)
      case None => NoSum
  }

  /** The column names of a list of constants, in order. */
  function Names(columns: seq<Tables.DistancesTable>): (names: seq<string>)
    ensures |names| == |columns|
    ensures forall i :: 0 <= i < |columns| ==> names[i] == Tables.ColumnName(columns[i])
  {
    seq(|columns|, i requires 0 <= i < |columns| => Tables.ColumnName(columns[i]))
  }

  // ---------------------------------------------------------------------
  // The builder

  class DatabaseQuery {
    var table: string
    var columns: seq<string>
    var values: map<Key, Datum>
    var conditions: seq<string>

    /** A query on the named table, with nothing projected, stored or required. */
    constructor (table: string)
      ensures this.table == table
      ensures columns == [] && values == map[] && conditions == []
    {
      this.table := table;
      columns, values, conditions := [], map[], [];
    }

    /** A query on the table a constant names. */
    constructor OfColumn(table: Tables.DistancesTable)
      ensures this.table == Tables.ColumnName(table)
      ensures columns == [] && values == map[] && conditions == []
    {
      this.table := Tables.ColumnName(table);
      columns, values, conditions := [], map[], [];
    }

    /** column(String...): the names are projected after those already added. */
    method Column(names: seq<string>)
      modifies this`columns
      ensures columns == old(columns) + names
    {
      for i := 0 to |names|
        invariant columns == old(columns) + names[..i]
      {
        columns := columns + [names[i]];
        assert names[..i + 1] == names[..i] + [names[i]];
      }
      assert names[..|names|] == names;
    }

    /** column(Column...): the constants' names are projected after those already added. */
    method ColumnOf(cs: seq<Tables.DistancesTable>)
      modifies this`columns
      ensures columns == old(columns) + Names(cs)
    {
      for i := 0 to |cs|
        invariant columns == old(columns) + Names(cs[..i])
      {
        columns := columns + [Tables.ColumnName(cs[i])];
        assert Names(cs[..i + 1]) == Names(cs[..i]) + [Tables.ColumnName(cs[i])];
      }
      assert cs[..|cs|] == cs;
    }

    /** condition(String, Object): `key`='text of value'. */
    method Condition(key: string, value: Datum)
      modifies this`conditions
      ensures conditions == old(conditions) + [EqualsText(key, DatumText(value))]
      ensures NonEmptyItems(old(conditions)) ==> NonEmptyItems(conditions)
    {
      ConditionFormsNonEmpty(key, DatumText(value), 0, false);
      conditions := conditions + [EqualsText(key, DatumText(value))];
    }

    /** condition(Column, String): `column`='value'. */
    method ConditionText(column: Tables.DistancesTable, value: string)
      modifies this`conditions
      ensures conditions == old(conditions) + [EqualsText(Tables.ColumnName(column), value)]
      ensures NonEmptyItems(old(conditions)) ==> NonEmptyItems(conditions)
    {
      ConditionFormsNonEmpty(Tables.ColumnName(column), value, 0, false);
      conditions := conditions + [EqualsText(Tables.ColumnName(column), value)];
    }

    /** condition(Column, Integer): `column`=value, unquoted. */
    method ConditionInt(column: Tables.DistancesTable, value: Int32)
      modifies this`conditions
      ensures conditions == old(conditions) + [EqualsNumber(Tables.ColumnName(column), value)]
      ensures NonEmptyItems(old(conditions)) ==> NonEmptyItems(conditions)
    {
      ConditionFormsNonEmpty(Tables.ColumnName(column), "", value, false);
      conditions := conditions + [EqualsNumber(Tables.ColumnName(column), value)];
    }

    /** condition(Column, Long): `column`=value, unquoted. */
    method ConditionLong(column: Tables.DistancesTable, value: Int64)
      modifies this`conditions
      ensures conditions == old(conditions) + [EqualsNumber(Tables.ColumnName(column), value)]
      ensures NonEmptyItems(old(conditions)) ==> NonEmptyItems(conditions)
    {
      ConditionFormsNonEmpty(Tables.ColumnName(column), "", value, false);
      conditions := conditions + [EqualsNumber(Tables.ColumnName(column), value)];
    }

    /** condition(Column, Boolean): `column`=1 or `column`=0. */
    method ConditionFlag(column: Tables.DistancesTable, value: bool)
      modifies this`conditions
      ensures conditions == old(conditions) + [EqualsFlag(Tables.ColumnName(column), value)]
      ensures NonEmptyItems(old(conditions)) ==> NonEmptyItems(conditions)
    {
      ConditionFormsNonEmpty(Tables.ColumnName(column), "", 0, value);
      if value {
        conditions := conditions + [EqualsFlag(Tables.ColumnName(column), true)];
      } else {
        conditions := conditions + [EqualsFlag(Tables.ColumnName(column), false)];
      }
    }

    /** condition(List): the given condition strings, as they are, after the others. */
    method ConditionList(list: seq<string>)
      modifies this`conditions
      ensures conditions == old(conditions) + list
    {
      conditions := conditions + list;
    }

    /** value(String, Object): the key now holds the value; every other key keeps its own. */
    method Value(key: string, value: Datum)
      modifies this`values
      ensures values == old(values)[NameKey(key) := value]
    {
      values := values[NameKey(key) := value];
    }

    /** value(Column, Object): stored under the constant's name, a String key. */
    method ValueOf(column: Tables.DistancesTable, value: Datum)
      modifies this`values
      ensures values == old(values)[NameKey(Tables.ColumnName(column)) := value]
    {
      values := values[NameKey(Tables.ColumnName(column)) := value];
    }

    /** value(Column, boolean): stores the Integer 1 or 0 under the constant's name. */
    method ValueFlag(column: Tables.DistancesTable, value: bool)
      modifies this`values
      ensures values == old(values)[NameKey(Tables.ColumnName(column)) := Number(if value then 1 else 0)]
    {
      if value {
        values := values[NameKey(Tables.ColumnName(column)) := Number(1)];
      } else {
        values := values[NameKey(Tables.ColumnName(column)) := Number(0)];
      }
    }

    /** value(Map): putAll; on a shared key the given map wins. */
    method ValueMap(m: map<Key, Datum>)
      modifies this`values
      ensures values == old(values) + m
    {
      values := values + m;
    }

    /** valueRaw(Map<Column, Object>): putAll with the constants themselves as keys. */
    method ValueRaw(m: map<Tables.DistancesTable, Datum>)
      modifies this`values
      ensures values.Keys == old(values).Keys + set c | c in m :: ColumnKey(c)
      ensures forall c :: c in m ==> values[ColumnKey(c)] == m[c]
      ensures forall k :: k in old(values) && !(k.ColumnKey? && k.column in m) ==> values[k] == old(values)[k]
    {
      values := values + map c | c in m :: ColumnKey(c) := m[c];
    }

    // -------------------------------------------------------------------
    // Rendering, shared by the terminal calls

    /** The projection loop of select/selectAll. */
    method ProjectionText() returns (s: string)
      ensures s == Projection(columns)
    {
      if columns == [] {
        s := "*";
      } else {
        s := "";
        for i := 0 to |columns|
          invariant s == Fold(", ", Quoted(columns[..i]))
        {
          assert Quoted(columns[..i + 1]) == Quoted(columns[..i]) + [Quote(columns[i])];
          FoldAppend(", ", Quoted(columns[..i]), Quote(columns[i]));
          if s != "" {
            s := s + ", ";
          }
          s := s + Quote(columns[i]);
        }
        assert columns[..|columns|] == columns;
      }
    }

    /** The projection loop of sum, which keeps the first column only. */
    method SumTargetText() returns (s: string)
      ensures s == SumTarget(columns)
    {
      if columns == [] {
        s := "*";
      } else {
        s := "";
        for i := 0 to |columns|
          invariant s == SumFold(Quoted(columns[..i]))
        {
          assert Quoted(columns[..i + 1]) == Quoted(columns[..i]) + [Quote(columns[i])];
          assert (Quoted(columns[..i]) + [Quote(columns[i])])[..i] == Quoted(columns[..i]);
          if s != "" {
            s := s + ", ";
          } else {
            s := s + Quote(columns[i]);
          }
        }
        assert columns[..|columns|] == columns;
      }
    }

    /** The condition loop shared by every terminal call. */
    method WhereText() returns (clause: string)
      ensures clause == Where(conditions)
    {
      var conditionString := "";
      for i := 0 to |conditions|
        invariant conditionString == Fold(" AND ", conditions[..i])
      {
        assert conditions[..i + 1] == conditions[..i] + [conditions[i]];
        FoldAppend(" AND ", conditions[..i], conditions[i]);
        if conditionString != "" {
          conditionString := conditionString + " AND ";
        }
        conditionString := conditionString + conditions[i];
      }
      assert conditions[..|conditions|] == conditions;
      clause := if conditionString != "" then " WHERE " + conditionString else "";
    }

    // -------------------------------------------------------------------
    // Terminal calls

    /** select(index): the row at `index` of the SELECT's result; None out of range or on failure. */
    method Select(prefix: string, db: Database, index: Int32) returns (row: Option<QueryResult>)
      ensures row == RowAt(ExecuteQuery(db, SelectSql(prefix, table, columns, conditions)), index)
      ensures db.query(SelectSql(prefix, table, columns, conditions)).Threw? ==> row == None
    {
      var projection := ProjectionText();
      var sql := "SELECT " + projection + " FROM " + TableRef(prefix, table);
      var where := WhereText();
      var rows := ExecuteQuery(db, sql + where + ";");
      row := RowAt(rows, index);
    }

    /** select(): the first row; None when there is none. */
    method SelectFirst(prefix: string, db: Database) returns (row: Option<QueryResult>)
      ensures row.Some? <==> ExecuteQuery(db, SelectSql(prefix, table, columns, conditions)) != []
      ensures row.Some? ==> row.value == ExecuteQuery(db, SelectSql(prefix, table, columns, conditions))[0]
    {
      row := Select(prefix, db, 0);
    }

    /** selectAll(): every row of the SELECT's result, no row on failure. */
    method SelectAll(prefix: string, db: Database) returns (rows: seq<QueryResult>)
      ensures rows == ExecuteQuery(db, SelectSql(prefix, table, columns, conditions))
      ensures db.query(SelectSql(prefix, table, columns, conditions)).Threw? ==> rows == []
    {
      var projection := ProjectionText();
      var sql := "SELECT " + projection + " FROM " + TableRef(prefix, table);
      var where := WhereText();
      rows := ExecuteQuery(db, sql + where + ";");
    }

    /** exists(): whether selectAll() returns any row. */
    method Exists(prefix: string, db: Database) returns (b: bool)
      ensures b <==> ExecuteQuery(db, SelectSql(prefix, table, columns, conditions)) != []
    {
      var rows := SelectAll(prefix, db);
      b := rows != [];
    }

    /** sum(): the `temp` text of the first row of the sum query; NoSum (0) on failure or no row. */
    method Sum(prefix: string, db: Database) returns (s: SumResult)
      ensures s == FirstTemp(ExecuteQuery(db, SumSql(prefix, table, columns, conditions)))
      ensures db.query(SumSql(prefix, table, columns, conditions)).Threw? ==> s == NoSum
    {
      var target := SumTargetText();
      var sql := "SELECT sum(" + target + ") as `temp` FROM " + TableRef(prefix, table);
      var where := WhereText();
      var rows := ExecuteQuery(db, sql + where + ";");
      s := FirstTemp(rows);
    }

    /**
     * insert(): renders one field and one escaped value per stored entry,
     * in the map's iteration order `order`, removing each entry as it goes,
     * and runs the statement. The projection and conditions are kept.
     */
    method Insert(prefix: string, escape: string -> string, db: Database) returns (ok: bool, ghost order: seq<Key>)
      modifies this`values
      ensures values == map[]
      ensures columns == old(columns) && conditions == old(conditions)
      ensures Enumerates(order, old(values))
      ensures ok == ExecuteUpdate(db, InsertSql(prefix, table, Entries(order, old(values)), conditions, escape))
    {
      var fieldString, valueString := "", "";
      order := [];
      while values != map[]
        invariant forall k :: k in values ==> k in old(values) && values[k] == old(values)[k]
        invariant forall k :: k in order ==> k in old(values) && k !in values
        invariant forall k :: k in old(values) ==> k in values || k in order
        invariant Distinct(order)
        invariant fieldString == Fold(", ", Fields(Entries(order, old(values))))
        invariant valueString == Fold(", ", Literals(Entries(order, old(values)), escape))
        decreases |values|
      {
        var k :| k in values;
        EntriesAppend(order, k, old(values), escape);
        FoldAppend(", ", Fields(Entries(order, old(values))), FieldItem((k, old(values)[k])));
        FoldAppend(", ", Literals(Entries(order, old(values)), escape), LiteralItem((k, old(values)[k]), escape));
        if fieldString != "" {
          fieldString := fieldString + ", ";
        }
        if valueString != "" {
          valueString := valueString + ", ";
        }
        fieldString := fieldString + FieldItem((k, values[k]));
        valueString := valueString + LiteralItem((k, values[k]), escape);
        values := values - {k};
        order := order + [k];
      }
      var sql := "INSERT INTO " + TableRef(prefix, table) + " (" + fieldString + ") VALUES (" + valueString + ")";
      var where := WhereText();
      ok := ExecuteUpdate(db, sql + where + ";");
    }

    /**
     * update(): renders one `key`='value' pair per stored entry, in the
     * map's iteration order `order`, removing each entry as it goes, and
     * runs the statement. The projection and conditions are kept.
     */
    method Update(prefix: string, escape: string -> string, db: Database) returns (ok: bool, ghost order: seq<Key>)
      modifies this`values
      ensures values == map[]
      ensures columns == old(columns) && conditions == old(conditions)
      ensures Enumerates(order, old(values))
      ensures ok == ExecuteUpdate(db, UpdateSql(prefix, table, Entries(order, old(values)), conditions, escape))
    {
      var valueString := "";
      order := [];
      while values != map[]
        invariant forall k :: k in values ==> k in old(values) && values[k] == old(values)[k]
        invariant forall k :: k in order ==> k in old(values) && k !in values
        invariant forall k :: k in old(values) ==> k in values || k in order
        invariant Distinct(order)
        invariant valueString == Fold(", ", Assignments(Entries(order, old(values)), escape))
        decreases |values|
      {
        var k :| k in values;
        EntriesAppend(order, k, old(values), escape);
        FoldAppend(", ", Assignments(Entries(order, old(values)), escape), AssignItem((k, old(values)[k]), escape));
        if valueString != "" {
          valueString := valueString + ", ";
        }
        valueString := valueString + AssignItem((k, values[k]), escape);
        values := values - {k};
        order := order + [k];
      }
      var sql := "UPDATE " + TableRef(prefix, table) + " SET " + valueString;
      var where := WhereText();
      ok := ExecuteUpdate(db, sql + where + ";");
    }

    /** delete(): runs DELETE on the table under the conditions; no builder state changes. */
    method Delete(prefix: string, db: Database) returns (ok: bool)
      ensures ok == ExecuteUpdate(db, DeleteSql(prefix, table, conditions))
      ensures db.update(DeleteSql(prefix, table, conditions)).Threw? ==> !ok
    {
      var sql := "DELETE FROM " + TableRef(prefix, table);
      var where := WhereText();
      ok := ExecuteUpdate(db, sql + where + ";");
    }
  }

  /** Query.table(Column): a fresh builder on the table a constant names. */
  method Table(t: Tables.DistancesTable) returns (q: DatabaseQuery)
    ensures fresh(q)
    ensures q.table == Tables.ColumnName(t)
    ensures q.columns == [] && q.values == map[] && q.conditions == []
  {
    q := new DatabaseQuery.OfColumn(t);
  }

  /** The SET pair that stores the Integer 12 under `foot`. */
  lemma FootPair(escape: string -> string)
    ensures Fold(", ", Assignments([(NameKey("foot"), Number(12))], escape)) == "`foot`='" + escape("12") + "'"
  {
    assert Decimal(12) == "12";
    var pair := AssignItem((NameKey("foot"), Number(12)), escape);
    assert Assignments([(NameKey("foot"), Number(12))], escape) == [pair];
  }

  /** The WHERE clause that selects player 5. */
  lemma PlayerFiveWhere()
    ensures Where([EqualsNumber("player_id", 5)]) == " WHERE `player_id`=5"
  {
    assert Decimal(5) == "5";
  }

  /** The statement that sets player 5's distance on foot to 12. */
  lemma FootUpdateSql(prefix: string, escape: string -> string)
    ensures UpdateSql(prefix, "distances", [(NameKey("foot"), Number(12))], [EqualsNumber("player_id", 5)], escape)
         == "UPDATE `" + prefix + "distances` SET `foot`='" + escape("12") + "' WHERE `player_id`=5;"
  {
    FootPair(escape);
    PlayerFiveWhere();
    var head := "UPDATE `" + prefix;
    var table := TableRef(prefix, "distances");
    assert "UPDATE " + table + " SET " == head + "distances` SET " by {
      assert "UPDATE " + table == head + "distances`";
    }
    var front := head + "distances` SET `foot`='";
    assert "UPDATE " + table + " SET " + ("`foot`='" + escape("12") + "'") == front + escape("12") + "'";
    assert front + escape("12") + "'" + " WHERE `player_id`=5" + ";"
        == front + escape("12") + "' WHERE `player_id`=5;";
  }

  /** The statement for player 5 with nothing left to set: an empty SET list. */
  lemma DrainedUpdateSql(prefix: string, escape: string -> string)
    ensures UpdateSql(prefix, "distances", [], [EqualsNumber("player_id", 5)], escape)
         == "UPDATE `" + prefix + "distances` SET  WHERE `player_id`=5;"
  {
    PlayerFiveWhere();
  }

  /**
   * A builder used past its first update(): the first statement sets the
   * distance on foot of player 5; the second, with no value added since,
   * renders an empty SET list.
   */
  method UpdateTwice(prefix: string, escape: string -> string, db: Database) returns (first: bool, second: bool)
    ensures first == ExecuteUpdate(db, "UPDATE `" + prefix + "distances` SET `foot`='" + escape("12") + "' WHERE `player_id`=5;")
    ensures second == ExecuteUpdate(db, "UPDATE `" + prefix + "distances` SET  WHERE `player_id`=5;")
  {
    var q := Table(Tables.TableName);
    q.ConditionInt(Tables.PlayerId, 5);
    q.ValueOf(Tables.Foot, Number(12));
    ghost var stored := q.values;
    assert stored == map[NameKey("foot") := Number(12)];
    ghost var order;
    first, order := q.Update(prefix, escape, db);
    assert order == [NameKey("foot")] by {
      assert |order| == 1 by { EntriesAreTheMap(order, stored); }
      assert order[0] in stored;
    }
    assert Entries(order, stored) == [(NameKey("foot"), Number(12))];
    FootUpdateSql(prefix, escape);
    second, order := q.Update(prefix, escape, db);
    DrainedUpdateSql(prefix, escape);
  }
}
