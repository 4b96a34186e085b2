# Query builder of the statistics plugin, in Dafny

This project models the SQL query layer of the statistics plugin
(`com.mctrakr.database.Query`) and the `distances` table schema it is used
with (`com.mctrakr.modules.stats.distance.Tables`).

- `tables.dfy` (module `Tables`): the `DistancesTable` enum. Each constant
  carries a fixed lower-case column name, and `toString()` returns it. The
  constant `TableName` names the table itself (`distances`).
- `numbers.dfy` (module `Numbers`): the java.lang conversions the query layer
  depends on. These are the decimal text of a boxed `Integer`/`Long`, and
  `Integer.parseInt`/`Long.parseLong` with their NumberFormatException.
- `render.dfy` (module `Render`): the SQL text of every terminal call, as pure
  functions of the builder state. It covers the projection, the `WHERE`
  clause, the `sum(...)` argument, the `INSERT` field and value lists, the
  `UPDATE` SET list, and the literal forms of conditions and values.
  - The projection, the conditions, the `INSERT` fields and values and the
    `UPDATE` SET pairs are built by one loop idiom: append the separator only
    if the text so far is non-empty, then append the item. `Fold` is that
    loop and `Join` is the usual separator join. They agree when no item is
    empty, and every item the single-condition builders, `insert()` and
    `update()` produce is non-empty.
  - The `sum(...)` loop differs: it appends a column only while nothing has
    been built, and otherwise only the separator (`SumStep`, `SumFold`).
  - A `condition(List)` entry may be the empty string. An empty entry before
    the first non-empty one leaves no trace, so a list of empty conditions
    renders no `WHERE` at all (`WhereSpec`). An empty entry after a non-empty
    one still gets its separator: `a`=1, "", `b`=2 renders
    `` WHERE `a`=1 AND  AND `b`=2 ``.
- `query.dfy` (module `Query`):
  - the two failure-swallowing wrappers `ExecuteUpdate` and `ExecuteQuery`;
  - the read-only row `QueryResult` and its typed accessors;
  - the `DatabaseQuery` class. Its fields `columns`, `values` and `conditions`
    are updated in place by the fluent builder calls. Its terminal calls build
    the SQL in loops and are proved equal to the `Render` functions.

The database, the configured table prefix and the escaping routine
`Util.parseString` are parameters.

- The database is a `Database` value: for each SQL text it returns rows or
  `true`/`false`, or it throws.
- The HashMap behind `values` is a `map<Key, Datum>`. `insert()` and
  `update()` drain it one arbitrary key at a time (`var k :| k in values`),
  which stands for the unspecified iteration order. The order used comes back
  as a ghost `order`, and the order-independent facts are lemmas
  (`EntriesAreTheMap`, `RenderedItemsOrderIndependent`).
- The builder calls return nothing; a chain of calls is a sequence of calls.

The model follows the code as written, including these points where its
behaviour is easy to misread:

- `insert()` and `update()` single-quote every value, numbers included.
- `sum()` renders `as \`temp\``.
- With several projected columns, `sum()` renders the first column followed by
  one dangling `", "` per further column (`SumTargetSpec`).
- Only `value(Column, boolean)` turns a boolean into the Integer 1/0. A Boolean
  given to `value(String, Object)` or `condition(String, Object)` renders as
  `true`/`false` (`DatumText`).
- `asString` of a missing column is null (`None`), not the empty string.
- `asBoolean` of a missing column throws a NullPointerException, so it is a
  precondition.
- Conditions are rendered on `INSERT` as on every other statement.
- `valueRaw` keys are the constants themselves. A constant and a String of the
  same name are two HashMap keys, so both are rendered
  (`NameAndColumnKeyBothRendered`): here the last write does not win.

## Model

| member | source | states |
|---|---|---|
| Tables.ColumnName | src/com/mctrakr/modules/stats/distance/Tables.java:40-50 | each constant carries a non-empty name made of lower-case letters and `_` |
| Tables.ToString | src/com/mctrakr/modules/stats/distance/Tables.java:52-53 | `toString()` is exactly the column name; for `TableName` it is `distances` |
| Tables.NoBacktickInNames | src/com/mctrakr/modules/stats/distance/Tables.java:41-48 | no column name contains the identifier quote character |
| Tables.ColumnNameInjective | src/com/mctrakr/modules/stats/distance/Tables.java:41-48 | two constants have the same name iff they are the same constant |
| Numbers.Decimal | src/com/mctrakr/database/Query.java:183-186 | the text of a boxed number starts with `-` exactly when it is negative, and is digits otherwise |
| Numbers.Digits | src/com/mctrakr/database/Query.java:184 | the decimal digits of a natural number: non-empty, all digits, no leading zero |
| Numbers.ParseDecimal | src/com/mctrakr/database/Query.java:529-532 | text is accepted iff it is digits, or `-`/`+` followed by digits; digits read as their value, `-d` as minus that value, `+d` as that value |
| Numbers.ParseInt | src/com/mctrakr/database/Query.java:529-532 | `Integer.parseInt` succeeds iff the text is a numeral in the int range, and then gives its value; null fails |
| Numbers.ParseLong | src/com/mctrakr/database/Query.java:547-550 | `Long.parseLong` succeeds iff the text is a numeral in the long range, and then gives its value; null fails |
| Numbers.DigitsRoundTrip | src/com/mctrakr/database/Query.java:183-186 | reading back the decimal digits of a natural number gives the number |
| Numbers.DecimalRoundTrip | src/com/mctrakr/database/Query.java:205-208 | parsing the text of any boxed number gives the number back |
| Numbers.ParseIntOfDecimal | src/com/mctrakr/database/Query.java:529-532 | `parseInt` inverts the decimal text of every int |
| Numbers.ParseLongOfDecimal | src/com/mctrakr/database/Query.java:547-550 | `parseLong` inverts the decimal text of every long |
| Render.DatumText | src/com/mctrakr/database/Query.java:161-163 | `toString()` of a stored object: text as is, numbers parse back to themselves, booleans are `true`/`false` |
| Render.KeyText | src/com/mctrakr/database/Query.java:403 | a String key prints as itself and a constant key prints as its column name |
| Render.Step | src/com/mctrakr/database/Query.java:314-315 | one turn of the loop: the separator only after a non-empty text, then the item (characterised by `FoldAppend`) |
| Render.Fold | src/com/mctrakr/database/Query.java:313-316 | the loop over a list from the empty string: the join when no item is empty (`FoldIsJoin`), empty iff every item is (`FoldEmptyIff`) |
| Render.FoldAppend | src/com/mctrakr/database/Query.java:313-316 | one more item is one more turn of the accumulation loop |
| Render.FoldIsJoin | src/com/mctrakr/database/Query.java:313-316 | when no item is empty, the accumulation loop equals the separator join |
| Render.FoldEmptyIff | src/com/mctrakr/database/Query.java:312-317 | the loop builds the empty string iff every item is empty |
| Render.Projection | src/com/mctrakr/database/Query.java:302-309 | `*` or the backticked columns through the loop (characterised by `ProjectionSpec`) |
| Render.ProjectionSpec | src/com/mctrakr/database/Query.java:302-310 | the projection is `*` for no columns, otherwise the backticked columns joined by `", "` in insertion order |
| Render.SumStep | src/com/mctrakr/database/Query.java:371-372 | one turn of the `sum` loop: the column when nothing is built yet, otherwise only `", "` |
| Render.SumFold | src/com/mctrakr/database/Query.java:370-373 | the `sum` loop over the backticked columns (characterised by `SumFoldKeepsFirst`) |
| Render.SumTarget | src/com/mctrakr/database/Query.java:367-374 | `*` or the `sum` loop's text (characterised by `SumTargetSpec`) |
| Render.SumFoldKeepsFirst | src/com/mctrakr/database/Query.java:367-373 | the `sum` loop keeps the first item and adds one `", "` per further item |
| Render.SumTargetSpec | src/com/mctrakr/database/Query.java:367-375 | the `sum` argument is `*` with no column, the backticked column with one, and the first column plus dangling `", "` with more |
| Render.Where | src/com/mctrakr/database/Query.java:312-317 | ` WHERE ` and the looped conditions, or nothing when the loop built nothing (characterised by `WhereSpec`) |
| Render.WhereSpec | src/com/mctrakr/database/Query.java:312-317 | a WHERE clause appears iff some condition is non-empty; with non-empty conditions it appears iff there are any, and is their join by ` AND ` in order |
| Render.EqualsText | src/com/mctrakr/database/Query.java:162 | `` `c`='text' ``, also the form at line 173; it starts with the backticked column (`ConditionFormsNonEmpty`) |
| Render.EqualsNumber | src/com/mctrakr/database/Query.java:184 | `` `c`=n ``, also the form at line 206: it starts with the backticked column and `=`, and the rest parses back to `n` |
| Render.EqualsFlag | src/com/mctrakr/database/Query.java:217-218 | `` `c`=1 `` or `` `c`=0 ``; equal to the number condition on 1 or 0 (`FlagIsNumber`) |
| Render.FlagIsNumber | src/com/mctrakr/database/Query.java:216-219 | a Boolean condition renders as the Integer condition on 1 or 0 |
| Render.ConditionFormsNonEmpty | src/com/mctrakr/database/Query.java:161-208 | every single-condition form starts with the backticked column, so it is never empty |
| Render.FieldItem | src/com/mctrakr/database/Query.java:403 | one backticked field of an INSERT (non-empty by `QuotedItemsNonEmpty`) |
| Render.LiteralItem | src/com/mctrakr/database/Query.java:404 | one single-quoted escaped value of an INSERT (non-empty by `QuotedItemsNonEmpty`) |
| Render.AssignItem | src/com/mctrakr/database/Query.java:432 | one `` `k`='v' `` pair of an UPDATE (non-empty by `QuotedItemsNonEmpty`) |
| Render.SelectSql | src/com/mctrakr/database/Query.java:299-319 | the SELECT text starts with `SELECT ` and ends with `;` |
| Render.SumSql | src/com/mctrakr/database/Query.java:364-384 | the sum text starts with `SELECT sum(` and ends with `;` |
| Render.InsertSql | src/com/mctrakr/database/Query.java:392-416 | the INSERT text starts with `INSERT INTO ` and ends with `;` |
| Render.UpdateSql | src/com/mctrakr/database/Query.java:423-444 | the UPDATE text starts with `UPDATE ` and ends with `;` |
| Render.DeleteSql | src/com/mctrakr/database/Query.java:452-462 | the DELETE text starts with `DELETE FROM ` and ends with `;` |
| Render.SelectShape | src/com/mctrakr/database/Query.java:299-319 | SELECT is the projection join (or `*`), `FROM` the prefixed table in backticks, the conditions ANDed after ` WHERE ` when there are any, then `;` |
| Render.SumShape | src/com/mctrakr/database/Query.java:364-384 | with at most one column, sum renders `sum(*)` or ``sum(`c`)`` with ``as `temp` ``, the table and the ANDed conditions |
| Render.QuotedItemsNonEmpty | src/com/mctrakr/database/Query.java:400-404 | every rendered field, value and SET pair is non-empty |
| Render.InsertShape | src/com/mctrakr/database/Query.java:392-416 | INSERT lists the backticked fields and the quoted escaped values, each joined by `", "` from the same entry sequence, then the WHERE clause and `;` |
| Render.UpdateShape | src/com/mctrakr/database/Query.java:423-444 | UPDATE joins the `` `k`='v' `` pairs by `", "` after ` SET `; with no entries the SET list is empty and WHERE or `;` follows directly |
| Render.DeleteShape | src/com/mctrakr/database/Query.java:452-462 | DELETE renders the prefixed table and the ANDed conditions only |
| Render.EntriesAreTheMap | src/com/mctrakr/database/Query.java:397-406 | in any iteration order there is one rendered entry per stored key, each stored pair exactly once and nothing else |
| Render.EntriesAppend | src/com/mctrakr/database/Query.java:398-405 | visiting one more key appends its entry and its field, value and SET pair |
| Render.EntriesOrderIndependent | src/com/mctrakr/database/Query.java:397 | two iteration orders of the same map give the same multiset of entries |
| Render.RenderedItemsOrderIndependent | src/com/mctrakr/database/Query.java:427-434 | two iteration orders give the same fields, values and SET pairs up to reordering |
| Render.NameAndColumnKeyBothRendered | src/com/mctrakr/database/Query.java:281-283 | a String key and a constant key with the same name are both rendered, so the field appears twice |
| Query.ExecuteUpdate | src/com/mctrakr/database/Query.java:62-72 | the result is true iff the database returns true; a throw yields false |
| Query.ExecuteQuery | src/com/mctrakr/database/Query.java:80-90 | the result is the database's rows; a throw yields the empty list |
| Query.EqualsIgnoreCase | src/com/mctrakr/database/Query.java:512 | `String.equalsIgnoreCase` with the ASCII case mapping (characterised by `EqualsIgnoreCaseSpec`) |
| Query.EqualsIgnoreCaseSpec | src/com/mctrakr/database/Query.java:512 | equal ignoring case iff equal length and equal letter by letter once upper-cased; reflexive and symmetric |
| Query.EqualsIgnoreCaseOne | src/com/mctrakr/database/Query.java:511-513 | a string equals `"1"` ignoring case iff it is `"1"` |
| Query.QueryResult.AsString | src/com/mctrakr/database/Query.java:493-495 | the stored text when the column is present, None (null) otherwise |
| Query.QueryResult.AsBoolean | src/com/mctrakr/database/Query.java:511-513 | for a present column: true iff its text is `"1"` |
| Query.QueryResult.AsInt | src/com/mctrakr/database/Query.java:529-532 | -1 for a missing column, malformed text or a value outside the int range; otherwise the value of the numeral (signs and leading zeros included); an int stored in decimal reads back |
| Query.QueryResult.AsLong | src/com/mctrakr/database/Query.java:547-550 | -1 for a missing column, malformed text or a value outside the long range; otherwise the value of the numeral (signs and leading zeros included); a long stored in decimal reads back |
| Query.QueryResult.AsMap | src/com/mctrakr/database/Query.java:584-586 | the map holds exactly the columns `asString` finds, with the same text |
| Query.RowAt | src/com/mctrakr/database/Query.java:319-321 | a row iff 0 ≤ index < row count, and then the row at that index; None otherwise, including for no rows |
| Query.FirstTemp | src/com/mctrakr/database/Query.java:384-385 | nothing (0) when there is no row or no `temp` value; otherwise the first row's `temp` text |
| Query.Names | src/com/mctrakr/database/Query.java:139-141 | the constants' column names, in order |
| Query.DatabaseQuery.constructor | src/com/mctrakr/database/Query.java:106-112 | a query on the named table with no columns, values or conditions |
| Query.DatabaseQuery.OfColumn | src/com/mctrakr/database/Query.java:114-120 | a query on the table a constant names, with nothing else |
| Query.DatabaseQuery.Column | src/com/mctrakr/database/Query.java:128-131 | the names are appended to the projection; `columns(String[])` at lines 150-153 is the same operation |
| Query.DatabaseQuery.ColumnOf | src/com/mctrakr/database/Query.java:139-142 | the constants' names are appended to the projection |
| Query.DatabaseQuery.Condition | src/com/mctrakr/database/Query.java:161-164 | appends `` `key`='text' `` and changes nothing else; conditions that were all non-empty stay so |
| Query.DatabaseQuery.ConditionText | src/com/mctrakr/database/Query.java:172-175 | appends `` `column`='value' ``; conditions that were all non-empty stay so |
| Query.DatabaseQuery.ConditionInt | src/com/mctrakr/database/Query.java:183-186 | appends the unquoted `` `column`=n ``; conditions that were all non-empty stay so |
| Query.DatabaseQuery.ConditionLong | src/com/mctrakr/database/Query.java:205-208 | appends the unquoted `` `column`=n ``; conditions that were all non-empty stay so |
| Query.DatabaseQuery.ConditionFlag | src/com/mctrakr/database/Query.java:216-220 | appends `` `column`=1 `` or `` `column`=0 ``; conditions that were all non-empty stay so |
| Query.DatabaseQuery.ConditionList | src/com/mctrakr/database/Query.java:227-230 | appends the given strings as they are |
| Query.DatabaseQuery.Value | src/com/mctrakr/database/Query.java:238-241 | the key now maps to the value; every other key is unchanged (last write wins) |
| Query.DatabaseQuery.ValueOf | src/com/mctrakr/database/Query.java:249-252 | as `Value`, under the constant's name as a String key |
| Query.DatabaseQuery.ValueFlag | src/com/mctrakr/database/Query.java:260-264 | stores the Integer 1 or 0 under the constant's name |
| Query.DatabaseQuery.ValueMap | src/com/mctrakr/database/Query.java:271-274 | putAll: the given map wins on shared keys, other keys are kept |
| Query.DatabaseQuery.ValueRaw | src/com/mctrakr/database/Query.java:281-284 | putAll with constant keys: the given pairs are stored and all other entries are kept |
| Query.DatabaseQuery.ProjectionText | src/com/mctrakr/database/Query.java:302-310 | the projection loop builds `Projection(columns)` |
| Query.DatabaseQuery.SumTargetText | src/com/mctrakr/database/Query.java:367-374 | the `sum` loop builds `SumTarget(columns)` |
| Query.DatabaseQuery.WhereText | src/com/mctrakr/database/Query.java:312-317 | the condition loop builds `Where(conditions)` |
| Query.DatabaseQuery.Select | src/com/mctrakr/database/Query.java:299-322 | the row at `index` of the rows for the rendered SELECT; None when out of range or when the database throws |
| Query.DatabaseQuery.SelectFirst | src/com/mctrakr/database/Query.java:290-292 | a row iff the SELECT returns any, and then the first |
| Query.DatabaseQuery.SelectAll | src/com/mctrakr/database/Query.java:329-350 | the rows for the rendered SELECT; none when the database throws |
| Query.DatabaseQuery.Exists | src/com/mctrakr/database/Query.java:356-358 | true iff `selectAll()` returns a row |
| Query.DatabaseQuery.Sum | src/com/mctrakr/database/Query.java:364-386 | the `temp` text of the first row of the rendered sum query; NoSum (0) when the database throws or returns no row |
| Query.DatabaseQuery.Insert | src/com/mctrakr/database/Query.java:392-417 | renders every stored entry once, in an iteration order, runs the INSERT, and leaves `values` empty with projection and conditions unchanged |
| Query.DatabaseQuery.Update | src/com/mctrakr/database/Query.java:423-445 | renders every stored entry once as a SET pair, runs the UPDATE, and leaves `values` empty with projection and conditions unchanged |
| Query.DatabaseQuery.Delete | src/com/mctrakr/database/Query.java:452-463 | runs the rendered DELETE, changes no builder state, and is false when the database throws |
| Query.Table | src/com/mctrakr/database/Query.java:52-54 | a fresh, empty query on the table a constant names |
| Query.FootPair | src/com/mctrakr/database/Query.java:432 | the SET pair for `foot` holding 12 is `` `foot`='<escaped 12>' `` |
| Query.PlayerFiveWhere | src/com/mctrakr/database/Query.java:183-186 | the Integer condition on `player_id` 5 renders `` WHERE `player_id`=5 `` |
| Query.FootUpdateSql | src/com/mctrakr/database/Query.java:423-444 | the distances UPDATE of player 5's distance on foot, as literal text |
| Query.DrainedUpdateSql | src/com/mctrakr/database/Query.java:423-444 | the distances UPDATE for player 5 with no value, as literal text with an empty SET list |
| Query.UpdateTwice | src/com/mctrakr/database/Query.java:423-445 | a second `update()` on the same builder sends `` UPDATE `<prefix>distances` SET  WHERE `player_id`=5; `` |

## Left out

- The database layer (`Database.executeUpdate`/`executeQuery`) is not part of this model: it is the `Database` parameter, a function from SQL text to a reply or a throw.
- The debug and error logging of the two wrappers (`Message`, `ExceptionHandler`) is not modelled: it has no effect on results.
- `Util.parseString` is not part of this model: it is the `escape` parameter, and nothing is claimed about escaping.
- `LocalConfiguration.DBPrefix` is read from configuration: it is the `prefix` parameter.
- `condition(Column, Double)` and `asDouble` are left out: the model has no floating point.
- Query.DatabaseQuery.Sum: returns the raw `temp` text instead of a double, because double parsing is not modelled. For malformed text the source returns -1 (through `asDouble`), not 0.
- Null is not modelled: null values, keys or conditions (a NullPointerException or the text `null`), and a null list from the database.
- Query.QueryResult.AsInt: digits are ASCII only; `Integer.parseInt` also accepts other Unicode decimal digits, which the model rejects with -1.
- Query.QueryResult.AsLong: digits are ASCII only, for the same reason as `AsInt`.
- Query.EqualsIgnoreCaseOne: case mapping is ASCII only. No character outside ASCII has `1` as a case variant, so `asBoolean` is exact.
- The `Column` overloads of `asString`, `asBoolean`, `asInt`, `asLong` and `asDouble` call the String accessor with `Tables.ColumnName(c)` and are not separate members.
- Keys of `value(Map)` other than Strings and `DistancesTable` constants are not modelled.
- The fluent `return this` is not modelled: each builder call is a method without a result.
- Event listeners, plugin lifecycle, timers, the session registry, the flush scheduler and the older `yasp` table constants are not part of this model.
