/** The database as seen through JDBC: a connection answers an executed
    statement (its SQL and its bound parameters) with a cursor of rows, or with
    an update count and the generated keys. A `PreparedStatement` is the
    driver's object whose state is its positional parameter slots. */
module Jdbc {
  import opened Wrappers
  import opened SqlValues
  import opened Schema

  /** The SQL a statement was prepared with: caller-written text, or a template
      generated from a table descriptor. */
  datatype Sql = Raw(text: string) | Generated(template: Template)

  /** What executing an update reports: the update count and the rows of
      generated keys. */
  datatype Execution = Execution(updateCount: int, generatedKeys: seq<Row>)

  /** The store behind a connection, as two total functions; either may fail. */
  datatype Connection = Connection(
    executeQuery: (Sql, map<int, Param>) -> Result<seq<Row>, Throwable>,
    execute: (Sql, map<int, Param>) -> Result<Execution, Throwable>)

  /** A driver statement. `params` holds the bound slots; `generatedKeys` the
      keys reported by the last execution; `keysRequested` records whether
      `getGeneratedKeys` was ever called. */
  class PreparedStatement {
    const conn: Connection
    const sql: Sql
    const returnGeneratedKeys: bool
    var params: map<int, Param>
    var generatedKeys: seq<Row>
    var keysRequested: bool

    constructor (conn: Connection, sql: Sql, returnGeneratedKeys: bool)
      ensures this.conn == conn && this.sql == sql
      ensures this.returnGeneratedKeys == returnGeneratedKeys
      ensures params == map[] && generatedKeys == [] && !keysRequested
    {
      this.conn := conn;
      this.sql := sql;
      this.returnGeneratedKeys := returnGeneratedKeys;
      params := map[];
      generatedKeys := [];
      keysRequested := false;
    }

    /** Bind one slot to an already computed parameter (what a registered
        type-mapper setter does). */
    method SetParam(parameterIndex: int, p: Param)
      modifies this`params
      ensures params == old(params)[parameterIndex := p]
    {
      params := params[parameterIndex := p];
    }

    /** `setNull(i, sqlType)`. */
    method SetNull(parameterIndex: int, sqlType: int)
      modifies this`params
      ensures params == old(params)[parameterIndex := SqlNull(sqlType)]
    {
      params := params[parameterIndex := SqlNull(sqlType)];
    }

    /** `setBoolean`, `setByte`, `setShort`, `setInt`, `setLong`, `setFloat`, `setDouble`. */
    method SetValue(parameterIndex: int, x: Value)
      modifies this`params
      ensures params == old(params)[parameterIndex := Val(x)]
    {
      params := params[parameterIndex := Val(x)];
    }

    /** `setObject(i, x)`: a null object is bound without a type code. */
    method SetObject(parameterIndex: int, x: Option<Value>)
      modifies this`params
      ensures params == old(params)[parameterIndex := ObjectParam(x)]
    {
      params := params[parameterIndex := ObjectParam(x)];
    }

    /** `setArray(i, keys)`. */
    method SetArray(parameterIndex: int, keys: set<Value>)
      modifies this`params
      ensures params == old(params)[parameterIndex := KeyArray(keys)]
    {
      params := params[parameterIndex := KeyArray(keys)];
    }

    /** `executeQuery()`: the store's answer to this SQL with these slots. */
    method ExecuteQuery() returns (r: Result<seq<Row>, Throwable>)
      ensures r == conn.executeQuery(sql, params)
    {
      r := conn.executeQuery(sql, params);
    }

    /** `execute()` / `executeUpdate()`: returns the update count and keeps the
        generated keys when the statement was prepared to return them. */
    method Execute() returns (r: Result<int, Throwable>)
      modifies this`generatedKeys
      ensures var x := conn.execute(sql, params);
        && (x.Failure? ==> r == Failure(x.error) && generatedKeys == old(generatedKeys))
        && (x.Success? ==>
              && r == Success(x.value.updateCount)
              && generatedKeys == if returnGeneratedKeys then x.value.generatedKeys else [])
    {
      var x := conn.execute(sql, params);
      if x.Failure? {
        r := Failure(x.error);
      } else {
        r := Success(x.value.updateCount);
        generatedKeys := if returnGeneratedKeys then x.value.generatedKeys else [];
      }
    }

    /** `getGeneratedKeys()`. */
    method GetGeneratedKeys() returns (keys: seq<Row>)
      modifies this`keysRequested
      ensures keys == generatedKeys && keysRequested
    {
      keys := generatedKeys;
      keysRequested := true;
    }
  }
}
