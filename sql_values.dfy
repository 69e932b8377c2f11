/** The JDBC-level vocabulary shared by both libraries: the values a statement
    parameter or a result column can hold, the `java.sql.Types` codes used for
    typed SQL NULLs, the bound-parameter slot contents, the exceptions that can
    be thrown, and a result row. */
module SqlValues {
  import opened Wrappers

  /** Java's fixed-width integer types. */
  newtype int8 = x: int | -0x80 <= x < 0x80
  newtype int16 = x: int | -0x8000 <= x < 0x8000
  newtype int32 = x: int | -0x8000_0000 <= x < 0x8000_0000
  newtype int64 = x: int | -0x8000_0000_0000_0000 <= x < 0x8000_0000_0000_0000

  /** IEEE-754 payloads are carried as opaque bit patterns; no arithmetic is modelled. */
  datatype Float32 = Float32(bits: bv32)
  datatype Float64 = Float64(bits: bv64)

  /** A non-null value held by a field, a parameter or a column. */
  datatype Value =
    | Bool(b: bool)
    | Byte(i8: int8)
    | Short(i16: int16)
    | Int(i32: int32)
    | Long(i64: int64)
    | Float(f32: Float32)
    | Double(f64: Float64)
    | Text(s: string)
    | Other(id: int)   // any other object the driver marshals natively

  /** `java.sql.Types` codes of the typed NULLs written by the nullable setters. */
  const BOOLEAN: int := 16
  const TINYINT: int := -6
  const SMALLINT: int := 5
  const INTEGER: int := 4
  const BIGINT: int := -5
  const REAL: int := 7
  const DOUBLE: int := 8

  /** What one positional parameter slot of a prepared statement holds. */
  datatype Param =
    | SqlNull(sqlType: int)        // setNull(i, sqlType): a NULL of a known SQL type
    | Val(v: Value)                // a typed setter, or setObject with a non-null value
    | UntypedNull                  // setObject(i, null): a NULL without a type code
    | KeyArray(keys: set<Value>)   // setArray(i, keys): an array-valued parameter

  /** What `setObject(i, x)` binds: a null object without a type code, any
      other object as itself. */
  function ObjectParam(x: Option<Value>): Param {
    if x.None? then UntypedNull else Val(x.value)
  }

  /** The exceptions the model distinguishes. `RuntimeFailure` is any
      `java.lang.Exception` that is not an `SQLException`; `JavaError` is a
      `Throwable` that is not an `Exception` at all. */
  datatype Throwable =
    | SqlException(reason: string)
    | NullPointerException
    | RuntimeFailure(reason: string)
    | JavaError(reason: string)
    | BetterSqlException(cause: Throwable)

  /** One row of a result cursor, readable by column label and by 1-based
      column index; a column holding SQL NULL reads as `None`. */
  datatype Row = Row(byLabel: map<string, Option<Value>>, byIndex: seq<Option<Value>>) {

    /** `ResultSet.getObject(String)`: an unknown label is an `SQLException`. */
    function GetObject(columnLabel: string): (r: Result<Option<Value>, Throwable>)
      ensures r.Success? <==> columnLabel in byLabel
      ensures r.Success? ==> r.value == byLabel[columnLabel]
    {
      if columnLabel in byLabel then Success(byLabel[columnLabel])
      else Failure(SqlException("invalid column label"))
    }

    /** `ResultSet.getObject(int)`: columns are numbered from 1. */
    function GetObjectAt(columnIndex: int): (r: Result<Option<Value>, Throwable>)
      ensures r.Success? <==> 1 <= columnIndex <= |byIndex|
      ensures r.Success? ==> r.value == byIndex[columnIndex - 1]
    {
      if 1 <= columnIndex <= |byIndex| then Success(byIndex[columnIndex - 1])
      else Failure(SqlException("invalid column index"))
    }
  }
}
