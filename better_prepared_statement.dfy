/** `cyeagy.dorm.BetterPreparedStatement`: a wrapper around a driver statement
    whose additions are the null-safe setters for boxed primitives. Each setter
    writes a NULL of one fixed `java.sql.Types` code when its argument is null
    and the value itself otherwise, and touches no slot but its own. */
module DormStatement {
  import opened Wrappers
  import opened SqlValues
  import opened Jdbc

  class BetterPreparedStatement {
    const ps: PreparedStatement

    constructor Wrap(ps: PreparedStatement)
      ensures this.ps == ps
    {
      this.ps := ps;
    }

    /** `from(ps)`: a null statement is rejected with a `NullPointerException`. */
    static method From(ps: PreparedStatement?) returns (r: Result<BetterPreparedStatement, Throwable>)
      ensures r.Failure? <==> ps == null
      ensures r.Failure? ==> r.error == NullPointerException
      ensures r.Success? ==> r.value.ps == ps
    {
      if ps == null {
        r := Failure(NullPointerException);
      } else {
        var bps := new BetterPreparedStatement.Wrap(ps);
        r := Success(bps);
      }
    }

    /** The connection-side `create(connection, sql, returnGeneratedKeys)` that
        the ORM uses: prepare a fresh statement and wrap it. */
    static method Create(conn: Connection, sql: Sql, returnGeneratedKeys: bool) returns (bps: BetterPreparedStatement)
      ensures fresh(bps) && fresh(bps.ps)
      ensures bps.ps.conn == conn && bps.ps.sql == sql
      ensures bps.ps.returnGeneratedKeys == returnGeneratedKeys
      ensures bps.ps.params == map[] && bps.ps.generatedKeys == [] && !bps.ps.keysRequested
    {
      var ps := new PreparedStatement(conn, sql, returnGeneratedKeys);
      bps := new BetterPreparedStatement.Wrap(ps);
    }

    method SetBooleanNullable(parameterIndex: int, x: Option<bool>)
      modifies ps`params
      ensures ps.params == old(ps.params)[parameterIndex :=
        if x.None? then SqlNull(BOOLEAN) else Val(Bool(x.value))]
    {
      if x.None? {
        SetNull(parameterIndex, BOOLEAN);
      } else {
        ps.SetValue(parameterIndex, Bool(x.value));
      }
    }

    method SetByteNullable(parameterIndex: int, x: Option<int8>)
      modifies ps`params
      ensures ps.params == old(ps.params)[parameterIndex :=
        if x.None? then SqlNull(TINYINT) else Val(Byte(x.value))]
    {
      if x.None? {
        SetNull(parameterIndex, TINYINT);
      } else {
        ps.SetValue(parameterIndex, Byte(x.value));
      }
    }

    method SetShortNullable(parameterIndex: int, x: Option<int16>)
      modifies ps`params
      ensures ps.params == old(ps.params)[parameterIndex :=
        if x.None? then SqlNull(SMALLINT) else Val(Short(x.value))]
    {
      if x.None? {
        SetNull(parameterIndex, SMALLINT);
      } else {
        ps.SetValue(parameterIndex, Short(x.value));
      }
    }

    method SetIntNullable(parameterIndex: int, x: Option<int32>)
      modifies ps`params
      ensures ps.params == old(ps.params)[parameterIndex :=
        if x.None? then SqlNull(INTEGER) else Val(Int(x.value))]
    {
      if x.None? {
        SetNull(parameterIndex, INTEGER);
      } else {
        ps.SetValue(parameterIndex, Int(x.value));
      }
    }

    method SetLongNullable(parameterIndex: int, x: Option<int64>)
      modifies ps`params
      ensures ps.params == old(ps.params)[parameterIndex :=
        if x.None? then SqlNull(BIGINT) else Val(Long(x.value))]
    {
      if x.None? {
        SetNull(parameterIndex, BIGINT);
      } else {
        ps.SetValue(parameterIndex, Long(x.value));
      }
    }

    method SetFloatNullable(parameterIndex: int, x: Option<Float32>)
      modifies ps`params
      ensures ps.params == old(ps.params)[parameterIndex :=
        if x.None? then SqlNull(REAL) else Val(Float(x.value))]
    {
      if x.None? {
        SetNull(parameterIndex, REAL);
      } else {
        ps.SetValue(parameterIndex, Float(x.value));
      }
    }

    method SetDoubleNullable(parameterIndex: int, x: Option<Float64>)
      modifies ps`params
      ensures ps.params == old(ps.params)[parameterIndex :=
        if x.None? then SqlNull(DOUBLE) else Val(Double(x.value))]
    {
      if x.None? {
        SetNull(parameterIndex, DOUBLE);
      } else {
        ps.SetValue(parameterIndex, Double(x.value));
      }
    }

    /** The slot-writing primitive the nullable setters forward to. */
    method SetNull(parameterIndex: int, sqlType: int)
      modifies ps`params
      ensures ps.params == old(ps.params)[parameterIndex := SqlNull(sqlType)]
    {
      ps.SetNull(parameterIndex, sqlType);
    }

    // Plain forwarding to the wrapped statement, as used by the ORM.

    method SetObject(parameterIndex: int, x: Option<Value>)
      modifies ps`params
      ensures ps.params == old(ps.params)[parameterIndex := ObjectParam(x)]
    {
      ps.SetObject(parameterIndex, x);
    }

    method SetArray(parameterIndex: int, keys: set<Value>)
      modifies ps`params
      ensures ps.params == old(ps.params)[parameterIndex := KeyArray(keys)]
    {
      ps.SetArray(parameterIndex, keys);
    }

    method ExecuteQuery() returns (r: Result<seq<Row>, Throwable>)
      ensures r == ps.conn.executeQuery(ps.sql, ps.params)
    {
      r := ps.ExecuteQuery();
    }

    method Execute() returns (r: Result<int, Throwable>)
      modifies ps`generatedKeys
      ensures var x := ps.conn.execute(ps.sql, ps.params);
        && (x.Failure? ==> r == Failure(x.error) && ps.generatedKeys == old(ps.generatedKeys))
        && (x.Success? ==>
              && r == Success(x.value.updateCount)
              && ps.generatedKeys == if ps.returnGeneratedKeys then x.value.generatedKeys else [])
    {
      r := ps.Execute();
    }

    method GetGeneratedKeys() returns (keys: seq<Row>)
      modifies ps`keysRequested
      ensures keys == ps.generatedKeys && ps.keysRequested
    {
      keys := ps.GetGeneratedKeys();
    }
  }
}
