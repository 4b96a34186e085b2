/**
 * The `distances` table of the distance statistics module: an enum of
 * constants, each carrying the fixed column name used verbatim in SQL text.
 * The first constant names the table itself.
 */
module Tables {

  datatype DistancesTable =
    | TableName
    | PlayerId
    | Foot
    | Swim
    | Flight
    | Boat
    | Minecart
    | Ride

  /** A character allowed in a schema identifier: a lower-case ASCII letter or `_`. */
  predicate IsIdentifierChar(c: char)
  {
    'a' <= c <= 'z' || c == '_'
  }

  /**
   * The column name carried by each constant (the getter Lombok generates).
   * Every name is a non-empty lower-case identifier, so it never contains
   * the backtick that quotes identifiers in SQL text.
   */
  function ColumnName(c: DistancesTable): (name: string)
    ensures name != []
    ensures forall i :: 0 <= i < |name| ==> IsIdentifierChar(name[i])
  {
    match c
    case TableName => "distances"
    case PlayerId => "player_id"
    case Foot => "foot"
    case Swim => "swim"
    case Flight => "flight"
    case Boat => "boat"
    case Minecart => "minecart"
    case Ride => "ride"
  }

  /** `toString()` of a constant is exactly its column name. */
  function ToString(c: DistancesTable): (s: string)
    ensures s == ColumnName(c)
    ensures c == TableName ==> s == "distances"
  {
    ColumnName(c)
  }

  /** Column names never contain a backtick, the SQL identifier quote. */
  lemma NoBacktickInNames(c: DistancesTable)
    ensures '`' !in ColumnName(c)
  {
  }

  /** Distinct constants carry distinct names: the mapping is injective. */
  lemma ColumnNameInjective(a: DistancesTable, b: DistancesTable)
    ensures ColumnName(a) == ColumnName(b) <==> a == b
  {
  }
}
