/**
 * The per-column record the processor fills in while it walks the fields:
 * a mutable ColumnInfo object, its value snapshot ColumnRecord, and the
 * getters that substitute defaults for unset precision and scale.
 */
module Columns {
  import opened Elements

  const STRING_TYPE := "java.lang.String"
  const INTEGER_TYPE := "java.lang.Integer"
  const LONG_TYPE := "java.lang.Long"
  const DATE_TYPE := "java.util.Date"
  const LOCAL_DATE_TIME_TYPE := "java.time.LocalDateTime"
  const LOCAL_DATE_TYPE := "java.time.LocalDate"
  const LOCAL_TIME_TYPE := "java.time.LocalTime"
  const TIMESTAMP_TYPE := "java.sql.Timestamp"
  const BIG_DECIMAL_TYPE := "java.math.BigDecimal"
  const FLOAT_TYPE := "java.lang.Float"
  const DOUBLE_TYPE := "java.lang.Double"
  const BYTE_TYPE := "java.lang.Byte"
  const SHORT_TYPE := "java.lang.Short"
  const BOOLEAN_TYPE := "java.lang.Boolean"

  /**
   * The state of one ColumnInfo as a value. The boxed Integer and String
   * fields that may stay null are options: None is null.
   */
  datatype ColumnRecord = ColumnRecord(
    javaType: string,
    javaField: string,
    column: string,
    length: Option<int>,
    nullable: bool,
    isJson: bool,
    columnDefinition: Option<string>,
    precision: Option<int>,
    scale: Option<int>)
  {
    /** getPrecision: its "non-null and non-zero, else 0" is simply "null reads as 0". */
    function Precision(): (r: int)
      ensures precision.None? ==> r == 0
      ensures precision.Some? ==> r == precision.value
    {
      if precision.Some? && precision.value != 0 then precision.value else 0
    }

    /** getScale: null and 0 both read as 2, so the result is never 0. */
    function Scale(): (r: int)
      ensures r != 0
      ensures scale.Some? && scale.value != 0 ==> r == scale.value
      ensures scale.None? || scale.value == 0 ==> r == 2
    {
      if scale.Some? && scale.value != 0 then scale.value else 2
    }

    /**
     * The type mapper dereferences columnDefinition for Integer columns
     * only; a record is complete when that reference is set.
     */
    predicate HintsComplete()
    {
      javaType == INTEGER_TYPE ==> columnDefinition.Some?
    }
  }

  /**
   * The mutable column descriptor. Its getters and setters are plain field
   * reads and writes; the two getters with defaults are on its snapshot.
   * The three String fields start as "" where Java starts them as null;
   * every path sets them before they are read.
   */
  class ColumnInfo {
    var javaType: string
    var javaField: string
    var column: string
    var length: Option<int>
    var nullable: bool
    var isJson: bool
    var columnDefinition: Option<string>
    var precision: Option<int>
    var scale: Option<int>

    constructor ()
      ensures Snapshot() == ColumnRecord("", "", "", None, false, false, None, None, None)
    {
      javaType, javaField, column := "", "", "";
      length, nullable, isJson := None, false, false;
      columnDefinition, precision, scale := None, None, None;
    }

    function Snapshot(): ColumnRecord
      reads this
    {
      ColumnRecord(javaType, javaField, column, length, nullable, isJson, columnDefinition, precision, scale)
    }
  }

  /** The three type names that carry hints are distinct strings. */
  lemma HintTypesDistinct()
    ensures STRING_TYPE != INTEGER_TYPE && STRING_TYPE != BIG_DECIMAL_TYPE && INTEGER_TYPE != BIG_DECIMAL_TYPE
  {
    assert STRING_TYPE[10] != INTEGER_TYPE[10];
    assert STRING_TYPE[5] != BIG_DECIMAL_TYPE[5];
    assert INTEGER_TYPE[5] != BIG_DECIMAL_TYPE[5];
  }

  /** The snapshots of a list of ColumnInfo objects, position by position. */
  function Records(cs: seq<ColumnInfo>): (r: seq<ColumnRecord>)
    reads cs
    ensures |r| == |cs|
    ensures forall k | 0 <= k < |cs| :: r[k] == cs[k].Snapshot()
  {
    if cs == [] then [] else Records(cs[..|cs| - 1]) + [cs[|cs| - 1].Snapshot()]
  }
}
