/**
 * The SQL text a DatabaseQuery renders, as pure functions of its state.
 *
 * The source builds the projection, the conditions, the fields, the values
 * and the SET pairs with the same loop: before appending an item it appends
 * the separator only if the text built so far is not empty. `Fold` is that
 * loop; `Join` is the ordinary separator join it is compared against. The
 * `sum(...)` loop is a variant of its own (`SumFold`).
 */
module Render {
  import opened Wrappers
  import opened Numbers
  import Tables

  /** An object handed to value(...) or condition(String, Object); only its toString() is ever used. */
  datatype Datum = Text(text: string) | Number(n: int) | Flag(b: bool)

  /**
   * A key of the `values` HashMap: a String (every value(...) overload) or a
   * Column constant (valueRaw). A String and a constant are different keys
   * even when they print the same.
   */
  datatype Key = NameKey(name: string) | ColumnKey(column: Tables.DistancesTable)

  /** One stored column/value pair. */
  type Entry = (Key, Datum)

  /** toString() of a stored object: numbers in decimal, booleans as true/false. */
  function DatumText(d: Datum): (s: string)
    ensures d.Text? ==> s == d.text
    ensures d.Number? ==> ParseDecimal(s) == Some(d.n)
    ensures d.Flag? ==> (s == "true" || s == "false") && (s == "true" <==> d.b)
  {
    match d
    case Text(t) => t
    case Number(n) => DecimalRoundTrip(n); Decimal(n)
    case Flag(b) => if b then "true" else "false"
  }

  /** toString() of a key: the string itself, or the constant's column name. */
  function KeyText(k: Key): (s: string)
    ensures k.ColumnKey? ==> s == Tables.ToString(k.column)
    ensures k.NameKey? ==> s == k.name
  {
    match k
    case NameKey(name) => name
    case ColumnKey(c) => Tables.ToString(c)
  }

  /** An identifier in backticks. */
  function Quote(name: string): string
  {
    "`" + name + "`"
  }

  /** The table reference: the configured prefix glued to the table name, in backticks. */
  function TableRef(prefix: string, table: string): string
  {
    Quote(prefix + table)
  }

  function Quoted(names: seq<string>): seq<string>
  {
    seq(|names|, i requires 0 <= i < |names| => Quote(names[i]))
  }

  predicate NonEmptyItems(items: seq<string>)
  {
    forall i :: 0 <= i < |items| ==> items[i] != ""
  }

  function Repeat(s: string, n: nat): string
  {
    if n == 0 then "" else Repeat(s, n - 1) + s
  }

  // ---------------------------------------------------------------------
  // The accumulation loop and the join it is compared against

  /** One turn of the loop: a separator only when something was built already. */
  function Step(sep: string, acc: string, item: string): string
  {
    (if acc != "" then acc + sep else acc) + item
  }

  /** The loop run over `items` from the empty string. */
  function Fold(sep: string, items: seq<string>): string
  {
    if items == [] then "" else Step(sep, Fold(sep, items[..|items| - 1]), items[|items| - 1])
  }

  /** The items with `sep` between each two neighbours. */
  function Join(sep: string, items: seq<string>): string
  {
    if |items| == 0 then ""
    else if |items| == 1 then items[0]
    else Join(sep, items[..|items| - 1]) + sep + items[|items| - 1]
  }

  lemma {:induction false} JoinNonEmpty(sep: string, items: seq<string>)
    requires items != [] && items[|items| - 1] != ""
    ensures Join(sep, items) != ""
  {
  }

  /** One more item is one more turn of the loop. */
  lemma FoldAppend(sep: string, items: seq<string>, item: string)
    ensures Fold(sep, items + [item]) == Step(sep, Fold(sep, items), item)
  {
    assert (items + [item])[..|items|] == items;
  }

  /** When no item is empty the loop is the separator join. */
  lemma {:induction false} FoldIsJoin(sep: string, items: seq<string>)
    requires NonEmptyItems(items)
    ensures Fold(sep, items) == Join(sep, items)
  {
    if |items| > 1 {
      var init := items[..|items| - 1];
      FoldIsJoin(sep, init);
      JoinNonEmpty(sep, init);
    }
  }

  /** The loop builds the empty string exactly when every item is empty. */
  lemma {:induction false} FoldEmptyIff(sep: string, items: seq<string>)
    ensures Fold(sep, items) == "" <==> forall i :: 0 <= i < |items| ==> items[i] == ""
  {
    if items != [] {
      var init := items[..|items| - 1];
      FoldEmptyIff(sep, init);
      assert forall i :: 0 <= i < |init| ==> init[i] == items[i];
    }
  }

  // ---------------------------------------------------------------------
  // Projection and WHERE clause

  /** The projection of a SELECT: `*` when no column was added. */
  function Projection(columns: seq<string>): string
  {
    if columns == [] then "*" else Fold(", ", Quoted(columns))
  }

  lemma ProjectionSpec(columns: seq<string>)
    ensures Projection(columns) == if columns == [] then "*" else Join(", ", Quoted(columns))
  {
    FoldIsJoin(", ", Quoted(columns));
  }

  /** The loop of `sum`, whose `else` appends a column only while nothing has been built. */
  function SumStep(acc: string, item: string): string
  {
    if acc != "" then acc + ", " else acc + item
  }

  function SumFold(items: seq<string>): string
  {
    if items == [] then "" else SumStep(SumFold(items[..|items| - 1]), items[|items| - 1])
  }

  /** The argument of `sum(...)`: `*` when no column was added. */
  function SumTarget(columns: seq<string>): string
  {
    if columns == [] then "*" else SumFold(Quoted(columns))
  }

  lemma {:induction false} SumFoldKeepsFirst(items: seq<string>)
    requires items != [] && items[0] != ""
    ensures SumFold(items) == items[0] + Repeat(", ", |items| - 1)
  {
    if |items| > 1 {
      var init := items[..|items| - 1];
      SumFoldKeepsFirst(init);
    }
  }

  /**
   * `sum` keeps only the first column and then one dangling ", " for every
   * further column; with exactly one column it is that column.
   */
  lemma SumTargetSpec(columns: seq<string>)
    ensures columns == [] ==> SumTarget(columns) == "*"
    ensures columns != [] ==> SumTarget(columns) == Quote(columns[0]) + Repeat(", ", |columns| - 1)
    ensures |columns| == 1 ==> SumTarget(columns) == Quote(columns[0])
  {
    if columns != [] {
      SumFoldKeepsFirst(Quoted(columns));
    }
  }

  /** The conditions ANDed by the loop, behind " WHERE " unless that built nothing. */
  function Where(conditions: seq<string>): string
  {
    var c := Fold(" AND ", conditions);
    if c == "" then "" else " WHERE " + c
  }

  /**
   * A WHERE clause appears exactly when some condition is not empty; when
   * none is empty (every builder but condition(List) guarantees that), it
   * appears iff there are conditions and is their join by " AND ".
   */
  lemma WhereSpec(conditions: seq<string>)
    ensures Where(conditions) != "" <==> exists i :: 0 <= i < |conditions| && conditions[i] != ""
    ensures NonEmptyItems(conditions) ==>
      Where(conditions) == if conditions == [] then "" else " WHERE " + Join(" AND ", conditions)
  {
    FoldEmptyIff(" AND ", conditions);
    if NonEmptyItems(conditions) {
      FoldIsJoin(" AND ", conditions);
    }
  }

  // ---------------------------------------------------------------------
  // Conditions

  /** `c`='text', the form of condition(String, Object) and condition(Column, String). */
  function EqualsText(column: string, text: string): string
  {
    Quote(column) + "='" + text + "'"
  }

  /** `c`=n, the unquoted form of condition(Column, Integer) and condition(Column, Long). */
  function EqualsNumber(column: string, n: int): (r: string)
    ensures Quote(column) + "=" <= r && ParseDecimal(r[|Quote(column)| + 1..]) == Some(n)
  {
    var head := Quote(column) + "=";
    var r := head + Decimal(n);
    DecimalRoundTrip(n);
    assert r[|head|..] == Decimal(n);
    r
  }

  /** `c`=1 or `c`=0, the form of condition(Column, Boolean). */
  function EqualsFlag(column: string, b: bool): string
  {
    Quote(column) + (if b then "=1" else "=0")
  }

  /** A boolean condition is the numeric condition on 1 or 0. */
  lemma FlagIsNumber(column: string, b: bool)
    ensures EqualsFlag(column, b) == EqualsNumber(column, if b then 1 else 0)
  {
    assert Decimal(1) == "1" && Decimal(0) == "0";
  }

  /** Every single-condition form starts with the quoted column and is therefore never empty. */
  lemma ConditionFormsNonEmpty(column: string, text: string, n: int, b: bool)
    ensures Quote(column) <= EqualsText(column, text) && EqualsText(column, text) != ""
    ensures Quote(column) <= EqualsNumber(column, n) && EqualsNumber(column, n) != ""
    ensures Quote(column) <= EqualsFlag(column, b) && EqualsFlag(column, b) != ""
  {
  }

  // ---------------------------------------------------------------------
  // Stored values

  /** `k`, one field of an INSERT. */
  function FieldItem(e: Entry): string
  {
    Quote(KeyText(e.0))
  }

  /** 'v', one value of an INSERT, after the (unseen) escaping routine. */
  function LiteralItem(e: Entry, escape: string -> string): string
  {
    "'" + escape(DatumText(e.1)) + "'"
  }

  /** `k`='v', one pair of an UPDATE's SET list. */
  function AssignItem(e: Entry, escape: string -> string): string
  {
    FieldItem(e) + "=" + LiteralItem(e, escape)
  }

  /** Each entry rendered by `f`, in order. */
  function RenderEach(f: Entry -> string, entries: seq<Entry>): seq<string>
  {
    seq(|entries|, i requires 0 <= i < |entries| => f(entries[i]))
  }

  /** The field list of an INSERT, one item per entry. */
  function Fields(entries: seq<Entry>): seq<string>
  {
    RenderEach(FieldItem, entries)
  }

  /** The value list of an INSERT, one item per entry. */
  function Literals(entries: seq<Entry>, escape: string -> string): seq<string>
  {
    RenderEach(e => LiteralItem(e, escape), entries)
  }

  /** The SET list of an UPDATE, one item per entry. */
  function Assignments(entries: seq<Entry>, escape: string -> string): seq<string>
  {
    RenderEach(e => AssignItem(e, escape), entries)
  }

  // ---------------------------------------------------------------------
  // Iteration over the value map

  /** No element occurs twice. */
  predicate Distinct<T(==)>(s: seq<T>)
  {
    forall i, j :: 0 <= i < j < |s| ==> s[i] != s[j]
  }

  /** `order` lists every key of `m` exactly once: one iteration order the HashMap may use. */
  predicate Enumerates(order: seq<Key>, m: map<Key, Datum>)
  {
    && Distinct(order)
    && (forall k :: k in order ==> k in m)
    && (forall k :: k in m ==> k in order)
  }

  /** The entries of `m` in the given order. */
  function Entries(order: seq<Key>, m: map<Key, Datum>): seq<Entry>
    requires forall k :: k in order ==> k in m
  {
    seq(|order|, i requires 0 <= i < |order| => (order[i], m[order[i]]))
  }

  lemma {:induction false} DistinctMultiplicity<T>(s: seq<T>, x: T)
    requires Distinct(s)
    ensures multiset(s)[x] == if x in s then 1 else 0
  {
    if s != [] {
      var init := s[..|s| - 1];
      assert s == init + [s[|s| - 1]];
      DistinctMultiplicity(init, x);
    }
  }

  lemma {:induction false} DistinctCardinality<T>(s: seq<T>)
    requires Distinct(s)
    ensures |set x | x in s| == |s|
  {
    if s != [] {
      var init, last := s[..|s| - 1], s[|s| - 1];
      assert s == init + [last];
      DistinctCardinality(init);
      assert (set x | x in s) == (set x | x in init) + {last};
    }
  }

  /**
   * Whatever the iteration order, the entries rendered are exactly the
   * stored pairs, each once: as many entries as keys, every stored pair
   * once, and nothing else.
   */
  lemma EntriesAreTheMap(order: seq<Key>, m: map<Key, Datum>)
    requires Enumerates(order, m)
    ensures |Entries(order, m)| == |m|
    ensures forall k :: k in m ==> multiset(Entries(order, m))[(k, m[k])] == 1
    ensures forall e :: e in Entries(order, m) ==> e.0 in m && e.1 == m[e.0]
  {
    var entries := Entries(order, m);
    DistinctCardinality(order);
    assert (set x | x in order) == m.Keys;
    assert Distinct(entries);
    forall k | k in m
      ensures multiset(entries)[(k, m[k])] == 1
    {
      var i :| 0 <= i < |order| && order[i] == k;
      assert entries[i] == (k, m[k]);
      DistinctMultiplicity(entries, (k, m[k]));
    }
  }

  /** Taking one more key in the iteration adds its entry, and its rendered forms, at the end. */
  lemma EntriesAppend(order: seq<Key>, k: Key, m: map<Key, Datum>, escape: string -> string)
    requires forall x :: x in order ==> x in m
    requires k in m
    ensures Entries(order + [k], m) == Entries(order, m) + [(k, m[k])]
    ensures Fields(Entries(order + [k], m)) == Fields(Entries(order, m)) + [FieldItem((k, m[k]))]
    ensures Literals(Entries(order + [k], m), escape)
         == Literals(Entries(order, m), escape) + [LiteralItem((k, m[k]), escape)]
    ensures Assignments(Entries(order + [k], m), escape)
         == Assignments(Entries(order, m), escape) + [AssignItem((k, m[k]), escape)]
  {
    assert Entries(order + [k], m) == Entries(order, m) + [(k, m[k])];
  }

  /** Two iteration orders of the same map render the same multiset of entries. */
  lemma EntriesOrderIndependent(o1: seq<Key>, o2: seq<Key>, m: map<Key, Datum>)
    requires Enumerates(o1, m) && Enumerates(o2, m)
    ensures multiset(Entries(o1, m)) == multiset(Entries(o2, m))
  {
    var e1, e2 := Entries(o1, m), Entries(o2, m);
    EntriesAreTheMap(o1, m);
    EntriesAreTheMap(o2, m);
    forall e: Entry
      ensures multiset(e1)[e] == multiset(e2)[e]
    {
      if e.0 in m && e.1 == m[e.0] {
        assert multiset(e1)[e] == 1 == multiset(e2)[e];
      } else {
        assert e !in e1 && e !in e2;
      }
    }
  }

  lemma RenderEachAppend(f: Entry -> string, u: seq<Entry>, v: seq<Entry>)
    ensures RenderEach(f, u + v) == RenderEach(f, u) + RenderEach(f, v)
  {
  }

  lemma RemoveOne(b: seq<Entry>, j: nat)
    requires j < |b|
    ensures b == b[..j] + [b[j]] + b[j + 1..]
    ensures multiset(b[..j] + b[j + 1..]) == multiset(b) - multiset{b[j]}
  {
    assert b == b[..j] + [b[j]] + b[j + 1..];
  }

  /** Rendering each entry of two permutations of one another gives permutations of one another. */
  lemma {:induction false} RenderEachPermutation(f: Entry -> string, a: seq<Entry>, b: seq<Entry>)
    requires multiset(a) == multiset(b)
    ensures multiset(RenderEach(f, a)) == multiset(RenderEach(f, b))
    decreases |a|
  {
    if a != [] {
      var x := a[0];
      assert x in multiset(b);
      var j :| 0 <= j < |b| && b[j] == x;
      var left, right := b[..j], b[j + 1..];
      RemoveOne(b, j);
      assert a == [x] + a[1..];
      assert multiset(a[1..]) == multiset(a) - multiset{x};
      RenderEachPermutation(f, a[1..], left + right);
      RenderEachAppend(f, [x], a[1..]);
      RenderEachAppend(f, left, right);
      RenderEachAppend(f, left + [x], right);
      RenderEachAppend(f, left, [x]);
      calc {
        multiset(RenderEach(f, b));
        multiset(RenderEach(f, left) + RenderEach(f, [x]) + RenderEach(f, right));
        multiset(RenderEach(f, [x])) + multiset(RenderEach(f, left) + RenderEach(f, right));
        multiset(RenderEach(f, [x])) + multiset(RenderEach(f, left + right));
        multiset(RenderEach(f, [x])) + multiset(RenderEach(f, a[1..]));
        multiset(RenderEach(f, a));
      }
    }
  }

  /**
   * Whatever order the HashMap iterates in, an INSERT renders the same
   * fields and the same values, and an UPDATE the same SET pairs, each
   * list up to reordering.
   */
  lemma RenderedItemsOrderIndependent(o1: seq<Key>, o2: seq<Key>, m: map<Key, Datum>, escape: string -> string)
    requires Enumerates(o1, m) && Enumerates(o2, m)
    ensures multiset(Fields(Entries(o1, m))) == multiset(Fields(Entries(o2, m)))
    ensures multiset(Literals(Entries(o1, m), escape)) == multiset(Literals(Entries(o2, m), escape))
    ensures multiset(Assignments(Entries(o1, m), escape)) == multiset(Assignments(Entries(o2, m), escape))
  {
    var e1, e2 := Entries(o1, m), Entries(o2, m);
    EntriesOrderIndependent(o1, o2, m);
    var literal := e => LiteralItem(e, escape);
    var assign := e => AssignItem(e, escape);
    RenderEachPermutation(FieldItem, e1, e2);
    RenderEachPermutation(literal, e1, e2);
    RenderEachPermutation(assign, e1, e2);
  }

  /**
   * A String key and a Column constant with the same name are two keys of
   * the map, so both are rendered: the field name appears twice.
   */
  lemma NameAndColumnKeyBothRendered(c: Tables.DistancesTable, v1: Datum, v2: Datum, order: seq<Key>)
    requires Enumerates(order, map[NameKey(Tables.ColumnName(c)) := v1, ColumnKey(c) := v2])
    ensures Fields(Entries(order, map[NameKey(Tables.ColumnName(c)) := v1, ColumnKey(c) := v2]))
         == [Quote(Tables.ColumnName(c)), Quote(Tables.ColumnName(c))]
  {
    var m := map[NameKey(Tables.ColumnName(c)) := v1, ColumnKey(c) := v2];
    assert m.Keys == {NameKey(Tables.ColumnName(c)), ColumnKey(c)};
    EntriesAreTheMap(order, m);
    assert |order| == 2;
    assert order[0] in m && order[1] in m;
    var es := Entries(order, m);
    assert Fields(es) == [FieldItem(es[0]), FieldItem(es[1])];
  }

  // ---------------------------------------------------------------------
  // Statements

  function SelectSql(prefix: string, table: string, columns: seq<string>, conditions: seq<string>): (sql: string)
    ensures "SELECT " <= sql && sql[|sql| - 1] == ';'
  {
    "SELECT " + Projection(columns) + " FROM " + TableRef(prefix, table) + Where(conditions) + ";"
  }

  function SumSql(prefix: string, table: string, columns: seq<string>, conditions: seq<string>): (sql: string)
    ensures "SELECT sum(" <= sql && sql[|sql| - 1] == ';'
  {
    "SELECT sum(" + SumTarget(columns) + ") as `temp` FROM " + TableRef(prefix, table) + Where(conditions) + ";"
  }

  function InsertSql(prefix: string, table: string, entries: seq<Entry>, conditions: seq<string>,
                     escape: string -> string): (sql: string)
    ensures "INSERT INTO " <= sql && sql[|sql| - 1] == ';'
  {
    "INSERT INTO " + TableRef(prefix, table) + " (" + Fold(", ", Fields(entries))
      + ") VALUES (" + Fold(", ", Literals(entries, escape)) + ")" + Where(conditions) + ";"
  }

  function UpdateSql(prefix: string, table: string, entries: seq<Entry>, conditions: seq<string>,
                     escape: string -> string): (sql: string)
    ensures "UPDATE " <= sql && sql[|sql| - 1] == ';'
  {
    "UPDATE " + TableRef(prefix, table) + " SET " + Fold(", ", Assignments(entries, escape))
      + Where(conditions) + ";"
  }

  function DeleteSql(prefix: string, table: string, conditions: seq<string>): (sql: string)
    ensures "DELETE FROM " <= sql && sql[|sql| - 1] == ';'
  {
    "DELETE FROM " + TableRef(prefix, table) + Where(conditions) + ";"
  }

  /** SELECT with its projection and WHERE clause written as joins. */
  lemma SelectShape(prefix: string, table: string, columns: seq<string>, conditions: seq<string>)
    requires NonEmptyItems(conditions)
    ensures SelectSql(prefix, table, columns, conditions)
         == "SELECT " + (if columns == [] then "*" else Join(", ", Quoted(columns)))
            + " FROM " + TableRef(prefix, table)
            + (if conditions == [] then "" else " WHERE " + Join(" AND ", conditions)) + ";"
  {
    ProjectionSpec(columns);
    WhereSpec(conditions);
  }

  /** sum(...) over one column or over every row, with `temp` as the result column. */
  lemma SumShape(prefix: string, table: string, columns: seq<string>, conditions: seq<string>)
    requires |columns| <= 1 && NonEmptyItems(conditions)
    ensures SumSql(prefix, table, columns, conditions)
         == "SELECT sum(" + (if columns == [] then "*" else Quote(columns[0]))
            + ") as `temp` FROM " + TableRef(prefix, table)
            + (if conditions == [] then "" else " WHERE " + Join(" AND ", conditions)) + ";"
  {
    SumTargetSpec(columns);
    WhereSpec(conditions);
  }

  lemma QuotedItemsNonEmpty(entries: seq<Entry>, escape: string -> string)
    ensures NonEmptyItems(Fields(entries))
    ensures NonEmptyItems(Literals(entries, escape))
    ensures NonEmptyItems(Assignments(entries, escape))
  {
    forall i | 0 <= i < |entries| ensures Fields(entries)[i] != "" {
      assert Fields(entries)[i] == FieldItem(entries[i]);
    }
  }

  /** INSERT: one field per entry and one value per entry, in the same order, as joins. */
  lemma InsertShape(prefix: string, table: string, entries: seq<Entry>, conditions: seq<string>,
                    escape: string -> string)
    requires NonEmptyItems(conditions)
    ensures InsertSql(prefix, table, entries, conditions, escape)
         == "INSERT INTO " + TableRef(prefix, table) + " (" + Join(", ", Fields(entries))
            + ") VALUES (" + Join(", ", Literals(entries, escape)) + ")"
            + (if conditions == [] then "" else " WHERE " + Join(" AND ", conditions)) + ";"
  {
    QuotedItemsNonEmpty(entries, escape);
    FoldIsJoin(", ", Fields(entries));
    FoldIsJoin(", ", Literals(entries, escape));
    WhereSpec(conditions);
  }

  /** UPDATE: the SET pairs as a join; with no entries the SET list is empty. */
  lemma UpdateShape(prefix: string, table: string, entries: seq<Entry>, conditions: seq<string>,
                    escape: string -> string)
    requires NonEmptyItems(conditions)
    ensures UpdateSql(prefix, table, entries, conditions, escape)
         == "UPDATE " + TableRef(prefix, table) + " SET " + Join(", ", Assignments(entries, escape))
            + (if conditions == [] then "" else " WHERE " + Join(" AND ", conditions)) + ";"
    ensures entries == [] ==>
      UpdateSql(prefix, table, entries, conditions, escape)
         == "UPDATE " + TableRef(prefix, table) + " SET "
            + (if conditions == [] then "" else " WHERE " + Join(" AND ", conditions)) + ";"
  {
    QuotedItemsNonEmpty(entries, escape);
    FoldIsJoin(", ", Assignments(entries, escape));
    WhereSpec(conditions);
  }

  /** DELETE: the table and the WHERE clause only. */
  lemma DeleteShape(prefix: string, table: string, conditions: seq<string>)
    requires NonEmptyItems(conditions)
    ensures DeleteSql(prefix, table, conditions)
         == "DELETE FROM " + TableRef(prefix, table)
            + (if conditions == [] then "" else " WHERE " + Join(" AND ", conditions)) + ";"
  {
    WhereSpec(conditions);
  }
}
