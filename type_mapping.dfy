/**
 * The type mapper of the addMetadata loop: from a column's Java type and
 * hints to the ColumnMetadata descriptor text `ofType(Types.X).withSize(n)`,
 * optionally `.withDigits(d)`, and `.notNull()` for a non-nullable column.
 */
module TypeMapping {
  import opened Elements
  import opened Columns
  import opened Numerals

  /** The java.sql.Types constants the mapper uses. */
  datatype JdbcType = VARCHAR | TINYINT | SMALLINT | INTEGER | BIGINT | TIMESTAMP | DATE | TIME
                    | NUMERIC | FLOAT | DOUBLE | CHAR | BIT | OTHER

  function JdbcName(t: JdbcType): string
  {
    match t
    case VARCHAR => "VARCHAR"
    case TINYINT => "TINYINT"
    case SMALLINT => "SMALLINT"
    case INTEGER => "INTEGER"
    case BIGINT => "BIGINT"
    case TIMESTAMP => "TIMESTAMP"
    case DATE => "DATE"
    case TIME => "TIME"
    case NUMERIC => "NUMERIC"
    case FLOAT => "FLOAT"
    case DOUBLE => "DOUBLE"
    case CHAR => "CHAR"
    case BIT => "BIT"
    case OTHER => "OTHER"
  }

  /**
   * A descriptor before rendering. `size` None renders as "null" (a null
   * length concatenated into the text); `digits` None means no withDigits.
   */
  datatype ColumnType = ColumnType(jdbc: JdbcType, size: Option<int>, digits: Option<int>)

  predicate OccursAt(s: string, sub: string, i: int)
  {
    0 <= i && i + |sub| <= |s| && s[i..i + |sub|] == sub
  }

  /** String.contains. */
  predicate Contains(s: string, sub: string)
  {
    exists i | 0 <= i <= |s| - |sub| :: OccursAt(s, sub, i)
  }

  predicate EndsWith(s: string, suffix: string)
  {
    |suffix| <= |s| && s[|s| - |suffix|..] == suffix
  }

  /** The if/else chain over the Java type name, in the processor's order. */
  function MapColumnType(c: ColumnRecord): (r: ColumnType)
    requires c.HintsComplete()
    ensures r.digits.Some? <==> c.javaType == LOCAL_DATE_TIME_TYPE || c.javaType == BIG_DECIMAL_TYPE
    ensures r.size.None? ==> r.jdbc == VARCHAR && c.length.None?
    ensures r.jdbc == VARCHAR ==> r.size == c.length || r.size == Some(INT_MAX)
    ensures c.javaType == BIG_DECIMAL_TYPE ==> r == ColumnType(NUMERIC, Some(c.Precision()), Some(c.Scale()))
  {
    if c.javaType == STRING_TYPE then
      if c.isJson then ColumnType(VARCHAR, Some(INT_MAX), None) else ColumnType(VARCHAR, c.length, None)
    else if c.javaType == INTEGER_TYPE then
      if Contains(c.columnDefinition.value, "tinyint") then ColumnType(TINYINT, Some(3), None)
      else if Contains(c.columnDefinition.value, "smallint") then ColumnType(SMALLINT, Some(3), None)
      else ColumnType(INTEGER, Some(10), None)
    else if c.javaType == LONG_TYPE then ColumnType(BIGINT, Some(19), None)
    else if c.javaType == DATE_TYPE then ColumnType(TIMESTAMP, Some(19), None)
    else if c.javaType == LOCAL_DATE_TIME_TYPE then ColumnType(TIMESTAMP, Some(29), Some(6))
    else if c.javaType == LOCAL_DATE_TYPE then ColumnType(DATE, Some(10), None)
    else if c.javaType == LOCAL_TIME_TYPE then ColumnType(TIME, Some(10), None)
    else if c.javaType == TIMESTAMP_TYPE then ColumnType(TIMESTAMP, Some(19), None)
    else if c.javaType == BIG_DECIMAL_TYPE then ColumnType(NUMERIC, Some(c.Precision()), Some(c.Scale()))
    else if c.javaType == FLOAT_TYPE then ColumnType(FLOAT, Some(5), None)
    else if c.javaType == DOUBLE_TYPE then ColumnType(DOUBLE, Some(5), None)
    else if c.javaType == BYTE_TYPE then ColumnType(CHAR, Some(1), None)
    else if c.javaType == SHORT_TYPE then ColumnType(NUMERIC, Some(5), None)
    else if c.javaType == BOOLEAN_TYPE then ColumnType(BIT, Some(1), None)
    else if c.isJson then ColumnType(OTHER, Some(INT_MAX), None)
    else ColumnType(VARCHAR, c.length, None)
  }

  function SizeText(size: Option<int>): string
  {
    match size
    case None => "null"
    case Some(n) => IntToString(n)
  }

  function RenderColumnType(t: ColumnType): string
  {
    "ofType(Types." + JdbcName(t.jdbc) + ").withSize(" + SizeText(t.size) + ")"
    + match t.digits
      case None => ""
      case Some(d) => ".withDigits(" + IntToString(d) + ")"
  }

  /** The descriptor text of one addMetadata call. */
  function ColumnTypeText(c: ColumnRecord): (r: string)
    requires c.HintsComplete()
    ensures "ofType(Types." + JdbcName(MapColumnType(c).jdbc) + ").withSize(" + SizeText(MapColumnType(c).size) + ")" <= r
    ensures r[|r| - 1] == ')'
  {
    var columnType := RenderColumnType(MapColumnType(c));
    if !c.nullable then columnType + ".notNull()" else columnType
  }

  /**
   * The descriptor text in full: the JDBC type and size, then `.withDigits(d)`
   * exactly when the mapped type has digits d, then `.notNull()` exactly when
   * the column is not nullable.
   */
  lemma ColumnTypeTextParts(c: ColumnRecord)
    requires c.HintsComplete()
    ensures var t := MapColumnType(c);
      ColumnTypeText(c)
      == "ofType(Types." + JdbcName(t.jdbc) + ").withSize(" + SizeText(t.size) + ")"
         + (if t.digits.Some? then ".withDigits(" + IntToString(t.digits.value) + ")" else "")
         + (if !c.nullable then ".notNull()" else "")
  {
  }

  /**
   * The table of the types whose descriptor is a constant: an independent
   * statement of those branches of the chain.
   */
  const FIXED_TYPES: map<string, ColumnType> := map[
    LONG_TYPE := ColumnType(BIGINT, Some(19), None),
    DATE_TYPE := ColumnType(TIMESTAMP, Some(19), None),
    LOCAL_DATE_TIME_TYPE := ColumnType(TIMESTAMP, Some(29), Some(6)),
    LOCAL_DATE_TYPE := ColumnType(DATE, Some(10), None),
    LOCAL_TIME_TYPE := ColumnType(TIME, Some(10), None),
    TIMESTAMP_TYPE := ColumnType(TIMESTAMP, Some(19), None),
    FLOAT_TYPE := ColumnType(FLOAT, Some(5), None),
    DOUBLE_TYPE := ColumnType(DOUBLE, Some(5), None),
    BYTE_TYPE := ColumnType(CHAR, Some(1), None),
    SHORT_TYPE := ColumnType(NUMERIC, Some(5), None),
    BOOLEAN_TYPE := ColumnType(BIT, Some(1), None)]

  /** For the fixed types the descriptor is the table's, whatever the hints. */
  lemma FixedTypesFollowTable(c: ColumnRecord)
    requires c.HintsComplete() && c.javaType in FIXED_TYPES
    ensures MapColumnType(c) == FIXED_TYPES[c.javaType]
  {
  }

  /** A JSON-flagged String column is VARCHAR of size Integer.MAX_VALUE, whatever its length. */
  lemma JsonStringIsUnbounded(c: ColumnRecord, length: Option<int>)
    requires c.javaType == STRING_TYPE && c.isJson
    ensures MapColumnType(c) == MapColumnType(c.(length := length)) == ColumnType(VARCHAR, Some(INT_MAX), None)
  {
  }

  /** A String column without the JSON flag is VARCHAR of its own length. */
  lemma PlainStringUsesLength(c: ColumnRecord)
    requires c.javaType == STRING_TYPE && !c.isJson
    ensures MapColumnType(c) == ColumnType(VARCHAR, c.length, None)
  {
  }

  /** An Integer column is TINYINT or SMALLINT of size 3 by its definition, else INTEGER of size 10. */
  lemma IntegerSubtype(c: ColumnRecord)
    requires c.javaType == INTEGER_TYPE && c.columnDefinition.Some?
    ensures var t := MapColumnType(c);
      && t.digits.None?
      && (Contains(c.columnDefinition.value, "tinyint") ==> t.jdbc == TINYINT && t.size == Some(3))
      && (!Contains(c.columnDefinition.value, "tinyint") && Contains(c.columnDefinition.value, "smallint")
          ==> t.jdbc == SMALLINT && t.size == Some(3))
      && (!Contains(c.columnDefinition.value, "tinyint") && !Contains(c.columnDefinition.value, "smallint")
          ==> t.jdbc == INTEGER && t.size == Some(10))
  {
  }

  /** A BigDecimal column is NUMERIC sized by getPrecision with getScale digits, never 0 digits. */
  lemma DecimalUsesPrecisionAndScale(c: ColumnRecord)
    requires c.javaType == BIG_DECIMAL_TYPE
    ensures MapColumnType(c) == ColumnType(NUMERIC, Some(c.Precision()), Some(c.Scale()))
    ensures MapColumnType(c).digits != Some(0)
  {
  }

  /** Any other type name is OTHER of size Integer.MAX_VALUE when JSON-flagged, else VARCHAR of its length. */
  lemma UnrecognisedTypeFallsBack(c: ColumnRecord)
    requires c.javaType !in FIXED_TYPES
    requires c.javaType != STRING_TYPE && c.javaType != INTEGER_TYPE && c.javaType != BIG_DECIMAL_TYPE
    ensures MapColumnType(c) == if c.isJson then ColumnType(OTHER, Some(INT_MAX), None)
                                else ColumnType(VARCHAR, c.length, None)
  {
  }

  /** A rendered descriptor ends in a value followed by ')', so never in "()". */
  lemma RenderEndsWithValue(t: ColumnType)
    ensures var r := RenderColumnType(t); |r| >= 2 && r[|r| - 1] == ')' && r[|r| - 2] != '('
  {
    var r := RenderColumnType(t);
    match t.digits {
      case None =>
        var v := SizeText(t.size);
        assert r == ("ofType(Types." + JdbcName(t.jdbc) + ").withSize(") + v + ")";
        assert r[|r| - 2] == v[|v| - 1];
      case Some(d) =>
        var v := IntToString(d);
        assert r == ("ofType(Types." + JdbcName(t.jdbc) + ").withSize(" + SizeText(t.size) + ")" + ".withDigits(") + v + ")";
        assert r[|r| - 2] == v[|v| - 1];
    }
  }

  /** `.notNull()` closes the descriptor exactly when the column is not nullable. */
  lemma NotNullIffNotNullable(c: ColumnRecord)
    requires c.HintsComplete()
    ensures EndsWith(ColumnTypeText(c), ".notNull()") <==> !c.nullable
  {
    var base := RenderColumnType(MapColumnType(c));
    RenderEndsWithValue(MapColumnType(c));
    if c.nullable {
      var n := |base|;
      if n >= 10 {
        assert base[n - 10..][8] == base[n - 2] != '(';
      }
    } else {
      var r := base + ".notNull()";
      assert r[|r| - 10..] == ".notNull()";
    }
  }
}
