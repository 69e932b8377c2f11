/** `io.github.cyeagy.bss.BetterSqlSupport`: an execution helper over raw SQL.
    Each operation checks its required arguments for null, prepares the SQL,
    lets an optional binding callback bind the parameters, executes, and maps
    the rows with caller-supplied callbacks. Inside the statement's scope an
    `SQLException` is re-thrown unchanged and other failures are wrapped in a
    `BetterSqlException` (by `query` every `Throwable`, by the others every
    `Exception`); the null checks come before that scope. */
module Bss {
  import opened Wrappers
  import opened SqlValues
  import opened Jdbc

  /** `StatementBinding`: what binding does to the fresh statement's slots. */
  type StatementBinding = map<int, Param> -> Result<map<int, Param>, Throwable>

  /** A callback over the current row and its 0-based index. */
  type RowMapping<X> = (Row, int) -> Result<X, Throwable>

  /** `ResultMapping<T>`: a row callback that may return null. */
  type ResultMapping<T> = RowMapping<Option<T>>

  // ---------------------------------------------------------------------------
  // Exception translation

  /** `catch (SQLException e) { throw e; } catch (Throwable e) { throw new BetterSqlException(e); }` */
  function WrapThrowable(e: Throwable): Throwable {
    if e.SqlException? then e else BetterSqlException(e)
  }

  /** `catch (SQLException e) { throw e; } catch (Exception e) { throw new BetterSqlException(e); }`:
      a `Throwable` that is not an `Exception` passes through unwrapped. */
  function WrapException(e: Throwable): Throwable {
    if e.SqlException? || e.JavaError? then e else BetterSqlException(e)
  }

  /** The failure a caller sees, unwrapped once. */
  function Cause(e: Throwable): Throwable {
    if e.BetterSqlException? then e.cause else e
  }

  /** The original failure can always be recovered from the thrown one, and a
      `SQLException` is thrown as itself. */
  lemma WrapRecoversCause(e: Throwable)
    ensures Cause(WrapThrowable(e)) == e && Cause(WrapException(e)) == e
    ensures e.SqlException? ==> WrapThrowable(e) == e && WrapException(e) == e
    ensures !e.SqlException? ==> WrapThrowable(e) == BetterSqlException(e)
    ensures !e.SqlException? && !e.JavaError? ==> WrapException(e) == BetterSqlException(e)
  {
  }

  // ---------------------------------------------------------------------------
  // The statement's round trip to the store

  /** The slots after the binding callback ran once on the fresh statement, or
      what it threw; with no callback the slots stay empty. */
  function Bound(binding: Option<StatementBinding>): Result<map<int, Param>, Throwable> {
    match binding
    case None => Success(map[])
    case Some(bind) => bind(map[])
  }

  /** The rows `executeQuery` returns for the bound statement. */
  function Cursor(conn: Connection, sql: string, binding: Option<StatementBinding>): Result<seq<Row>, Throwable> {
    match Bound(binding)
    case Failure(e) => Failure(e)
    case Success(params) => conn.executeQuery(Raw(sql), params)
  }

  /** What `executeUpdate` reports for the bound statement. */
  function Executed(conn: Connection, sql: string, binding: Option<StatementBinding>): Result<Execution, Throwable> {
    match Bound(binding)
    case Failure(e) => Failure(e)
    case Success(params) => conn.execute(Raw(sql), params)
  }

  // ---------------------------------------------------------------------------
  // Specification of the row loops

  /** Mapping `rows[i..]` with their indices, appended to `acc`; the first
      mapping that throws ends the loop. */
  function MapFrom<X>(rows: seq<Row>, mapping: RowMapping<X>, i: nat, acc: seq<X>): Result<seq<X>, Throwable>
    decreases |rows| - i
  {
    if i >= |rows| then Success(acc)
    else
      match mapping(rows[i], i)
      case Failure(e) => Failure(e)
      case Success(x) => MapFrom(rows, mapping, i + 1, acc + [x])
  }

  /** `map.put(keyMapping(row, i), resultMapping(row, i))` for `rows[i..]`:
      the key is mapped first, then the value, with the same index. */
  function PutFrom<K, V>(rows: seq<Row>, keyMapping: RowMapping<K>, resultMapping: RowMapping<V>,
                         i: nat, m: map<K, V>): Result<map<K, V>, Throwable>
    decreases |rows| - i
  {
    if i >= |rows| then Success(m)
    else
      match keyMapping(rows[i], i)
      case Failure(e) => Failure(e)
      case Success(k) =>
        match resultMapping(rows[i], i)
        case Failure(e) => Failure(e)
        case Success(v) => PutFrom(rows, keyMapping, resultMapping, i + 1, m[k := v])
  }

  /** What `queryList` returns or throws: the list may hold nulls, and a
      failing binding or `executeQuery` surfaces as its translated failure. */
  function QueryListResult<T>(conn: Option<Connection>, sql: Option<string>, binding: Option<StatementBinding>,
                              mapping: Option<ResultMapping<T>>): (r: Result<seq<Option<T>>, Throwable>)
    ensures r == Failure(NullPointerException) <==> conn.None? || sql.None? || mapping.None?
    ensures conn.Some? && sql.Some? && mapping.Some? && Cursor(conn.value, sql.value, binding).Failure? ==>
      r == Failure(WrapException(Cursor(conn.value, sql.value, binding).error))
  {
    if conn.None? || sql.None? || mapping.None? then Failure(NullPointerException)
    else
      match Cursor(conn.value, sql.value, binding)
      case Failure(e) => Failure(WrapException(e))
      case Success(rows) =>
        match MapFrom(rows, mapping.value, 0, [])
        case Failure(e) => Failure(WrapException(e))
        case Success(xs) => Success(xs)
  }

  /** What `queryMap` returns or throws: keys and values may be null, and a
      failing binding or `executeQuery` surfaces as its translated failure. */
  function QueryMapResult<K(==), T>(conn: Option<Connection>, sql: Option<string>, binding: Option<StatementBinding>,
                                resultMapping: Option<ResultMapping<T>>, keyMapping: Option<ResultMapping<K>>)
    : (r: Result<map<Option<K>, Option<T>>, Throwable>)
    ensures r == Failure(NullPointerException) <==>
      conn.None? || sql.None? || resultMapping.None? || keyMapping.None?
    ensures conn.Some? && sql.Some? && resultMapping.Some? && keyMapping.Some? && Cursor(conn.value, sql.value, binding).Failure? ==>
      r == Failure(WrapException(Cursor(conn.value, sql.value, binding).error))
  {
    if conn.None? || sql.None? || resultMapping.None? || keyMapping.None? then Failure(NullPointerException)
    else
      match Cursor(conn.value, sql.value, binding)
      case Failure(e) => Failure(WrapException(e))
      case Success(rows) =>
        match PutFrom(rows, keyMapping.value, resultMapping.value, 0, map[])
        case Failure(e) => Failure(WrapException(e))
        case Success(m) => Success(m)
  }

  // ---------------------------------------------------------------------------
  // The five operations

  /** `query`: the first row mapped with index 0, or null without rows; the
      mapping itself may also give null. Any failure inside the statement's
      scope other than an `SQLException` is wrapped, including a `Throwable`
      that is not an `Exception`. */
  function Query<T>(conn: Option<Connection>, sql: Option<string>, binding: Option<StatementBinding>,
                    mapping: Option<ResultMapping<T>>): (r: Result<Option<T>, Throwable>)
    ensures r == Failure(NullPointerException) <==> conn.None? || sql.None? || mapping.None?
    ensures r.Failure? ==> r.error.NullPointerException? || r.error.SqlException? || r.error.BetterSqlException?
    ensures conn.Some? && sql.Some? && mapping.Some? ==>
      var cursor := Cursor(conn.value, sql.value, binding);
      && (cursor.Failure? ==> r == Failure(WrapThrowable(cursor.error)))
      && (cursor.Success? && cursor.value == [] ==> r == Success(None))
      && (cursor.Success? && cursor.value != [] ==>
            var first := mapping.value(cursor.value[0], 0);
            && (first.Failure? ==> r == Failure(WrapThrowable(first.error)))
            && (first.Success? ==> r == Success(first.value)))
    ensures r.Success? ==>
      && Cursor(conn.value, sql.value, binding).Success?
      && (r.value.None? <==>
            || Cursor(conn.value, sql.value, binding).value == []
            || mapping.value(Cursor(conn.value, sql.value, binding).value[0], 0) == Success(None))
  {
    if conn.None? || sql.None? || mapping.None? then Failure(NullPointerException)
    else
      match Cursor(conn.value, sql.value, binding)
      case Failure(e) => Failure(WrapThrowable(e))
      case Success(rows) =>
        if rows == [] then Success(None)
        else
          match mapping.value(rows[0], 0)
          case Failure(e) => Failure(WrapThrowable(e))
          case Success(x) => Success(x)
  }

  /** `queryList`: one element per row, element i being row i mapped with
      index i, in cursor order. */
  method QueryList<T>(conn: Option<Connection>, sql: Option<string>, binding: Option<StatementBinding>,
                      mapping: Option<ResultMapping<T>>) returns (r: Result<seq<Option<T>>, Throwable>)
    ensures r == QueryListResult(conn, sql, binding, mapping)
  {
    if conn.None? || sql.None? || mapping.None? {
      return Failure(NullPointerException);
    }
    var bound := Bound(binding);
    if bound.Failure? {
      return Failure(WrapException(bound.error));
    }
    var cursor := conn.value.executeQuery(Raw(sql.value), bound.value);
    if cursor.Failure? {
      return Failure(WrapException(cursor.error));
    }
    var rows := cursor.value;
    var entities: seq<Option<T>> := [];
    var i := 0;
    while i < |rows|
      invariant 0 <= i <= |rows|
      invariant MapFrom(rows, mapping.value, 0, []) == MapFrom(rows, mapping.value, i, entities)
    {
      var x := mapping.value(rows[i], i);
      if x.Failure? {
        return Failure(WrapException(x.error));
      }
      entities := entities + [x.value];
      i := i + 1;
    }
    r := Success(entities);
  }

  /** `queryMap`: every row puts its key and value, mapped with the same index;
      a later row with an equal key overwrites an earlier one. */
  method QueryMap<K(==), T>(conn: Option<Connection>, sql: Option<string>, binding: Option<StatementBinding>,
                        resultMapping: Option<ResultMapping<T>>, keyMapping: Option<ResultMapping<K>>)
    returns (r: Result<map<Option<K>, Option<T>>, Throwable>)
    ensures r == QueryMapResult(conn, sql, binding, resultMapping, keyMapping)
  {
    if conn.None? || sql.None? || resultMapping.None? || keyMapping.None? {
      return Failure(NullPointerException);
    }
    var bound := Bound(binding);
    if bound.Failure? {
      return Failure(WrapException(bound.error));
    }
    var cursor := conn.value.executeQuery(Raw(sql.value), bound.value);
    if cursor.Failure? {
      return Failure(WrapException(cursor.error));
    }
    var rows := cursor.value;
    var m: map<Option<K>, Option<T>> := map[];
    var i := 0;
    while i < |rows|
      invariant 0 <= i <= |rows|
      invariant PutFrom(rows, keyMapping.value, resultMapping.value, 0, map[])
             == PutFrom(rows, keyMapping.value, resultMapping.value, i, m)
    {
      var k := keyMapping.value(rows[i], i);
      if k.Failure? {
        return Failure(WrapException(k.error));
      }
      var v := resultMapping.value(rows[i], i);
      if v.Failure? {
        return Failure(WrapException(v.error));
      }
      m := m[k.value := v.value];
      i := i + 1;
    }
    r := Success(m);
  }

  /** `update`: the update count of the bound statement. */
  function Update(conn: Option<Connection>, sql: Option<string>, binding: Option<StatementBinding>): (r: Result<int, Throwable>)
    ensures r == Failure(NullPointerException) <==> conn.None? || sql.None?
    ensures r.Failure? ==> !r.error.RuntimeFailure?
    ensures conn.Some? && sql.Some? && Executed(conn.value, sql.value, binding).Failure? ==>
      r == Failure(WrapException(Executed(conn.value, sql.value, binding).error))
    ensures conn.Some? && sql.Some? && Executed(conn.value, sql.value, binding).Success? ==>
      r == Success(Executed(conn.value, sql.value, binding).value.updateCount)
    ensures r.Success? ==>
      Executed(conn.value, sql.value, binding).Success?
      && r.value == Executed(conn.value, sql.value, binding).value.updateCount
  {
    if conn.None? || sql.None? then Failure(NullPointerException)
    else
      match Executed(conn.value, sql.value, binding)
      case Failure(e) => Failure(WrapException(e))
      case Success(x) => Success(x.updateCount)
  }

  /** `insert`: column 1 of the first generated-key row, or null without one. */
  function Insert(conn: Option<Connection>, sql: Option<string>, binding: Option<StatementBinding>): (r: Result<Option<Value>, Throwable>)
    ensures r == Failure(NullPointerException) <==> conn.None? || sql.None?
    ensures r.Failure? ==> !r.error.RuntimeFailure?
    ensures conn.Some? && sql.Some? ==>
      var x := Executed(conn.value, sql.value, binding);
      && (x.Failure? ==> r == Failure(WrapException(x.error)))
      && (x.Success? && x.value.generatedKeys != [] && x.value.generatedKeys[0].GetObjectAt(1).Failure? ==>
            r == Failure(WrapException(x.value.generatedKeys[0].GetObjectAt(1).error)))
      && (x.Success? && x.value.generatedKeys == [] ==> r == Success(None))
      && (x.Success? && x.value.generatedKeys != [] && x.value.generatedKeys[0].GetObjectAt(1).Success? ==>
            r == Success(x.value.generatedKeys[0].GetObjectAt(1).value))
    ensures r.Success? ==>
      && Executed(conn.value, sql.value, binding).Success?
      && var keys := Executed(conn.value, sql.value, binding).value.generatedKeys;
         && (keys == [] ==> r.value.None?)
         && (keys != [] ==> keys[0].GetObjectAt(1) == Success(r.value))
  {
    if conn.None? || sql.None? then Failure(NullPointerException)
    else
      match Executed(conn.value, sql.value, binding)
      case Failure(e) => Failure(WrapException(e))
      case Success(x) =>
        if x.generatedKeys == [] then Success(None)
        else
          match x.generatedKeys[0].GetObjectAt(1)
          case Failure(e) => Failure(WrapException(e))
          case Success(key) => Success(key)
  }

  // ---------------------------------------------------------------------------
  // Properties of the row loops

  /** Mapping `rows[i..]` succeeds exactly when every mapping does; then it
      appends one element per row, element k - i being row k mapped with k. */
  lemma {:induction false} MapFromContents<X>(rows: seq<Row>, mapping: RowMapping<X>, i: nat, acc: seq<X>)
    requires i <= |rows|
    ensures MapFrom(rows, mapping, i, acc).Success? <==>
      forall k :: i <= k < |rows| ==> mapping(rows[k], k).Success?
    ensures MapFrom(rows, mapping, i, acc).Success? ==>
      var xs := MapFrom(rows, mapping, i, acc).value;
      && |xs| == |acc| + |rows| - i
      && xs[..|acc|] == acc
      && forall k :: i <= k < |rows| ==> mapping(rows[k], k) == Success(xs[|acc| + k - i])
    decreases |rows| - i
  {
    if i < |rows| {
      var x := mapping(rows[i], i);
      if x.Success? {
        MapFromContents(rows, mapping, i + 1, acc + [x.value]);
        var xs := MapFrom(rows, mapping, i + 1, acc + [x.value]);
        if xs.Success? {
          assert xs.value[..|acc|] == xs.value[..|acc| + 1][..|acc|];
        }
      }
    }
  }

  /** Mapping fails with the failure of the first row whose mapping fails. */
  lemma {:induction false} MapFromFirstFailure<X>(rows: seq<Row>, mapping: RowMapping<X>, i: nat, acc: seq<X>)
    requires i <= |rows|
    requires MapFrom(rows, mapping, i, acc).Failure?
    ensures exists k ::
              && i <= k < |rows|
              && mapping(rows[k], k) == Failure(MapFrom(rows, mapping, i, acc).error)
              && forall j :: i <= j < k ==> mapping(rows[j], j).Success?
    decreases |rows| - i
  {
    var x := mapping(rows[i], i);
    if x.Success? {
      MapFromFirstFailure(rows, mapping, i + 1, acc + [x.value]);
      var k :| i + 1 <= k < |rows|
        && mapping(rows[k], k) == Failure(MapFrom(rows, mapping, i, acc).error)
        && forall j :: i + 1 <= j < k ==> mapping(rows[j], j).Success?;
      assert forall j :: i <= j < k ==> mapping(rows[j], j).Success?;
    } else {
      assert mapping(rows[i], i) == Failure(MapFrom(rows, mapping, i, acc).error);
    }
  }

  /** Every key and value mapping of `rows[i..]` succeeds. */
  predicate AllPut<K, V>(rows: seq<Row>, keyMapping: RowMapping<K>, resultMapping: RowMapping<V>, i: nat) {
    forall k :: i <= k < |rows| ==> keyMapping(rows[k], k).Success? && resultMapping(rows[k], k).Success?
  }

  /** Some row of `rows[i..]` maps to `key`. */
  predicate KeyOfSomeRow<K(==)>(rows: seq<Row>, keyMapping: RowMapping<K>, i: nat, key: K) {
    exists k :: i <= k < |rows| && keyMapping(rows[k], k) == Success(key)
  }

  /** No row after row `k` maps to the key of row `k`. */
  predicate LastWithItsKey<K(==)>(rows: seq<Row>, keyMapping: RowMapping<K>, k: nat) {
    forall j :: k < j < |rows| ==> keyMapping(rows[j], j) != keyMapping(rows[k], k)
  }

  /** Putting `rows[i..]` succeeds exactly when every key and value mapping does. */
  lemma {:induction false} PutFromSucceeds<K, V>(rows: seq<Row>, keyMapping: RowMapping<K>,
                                                 resultMapping: RowMapping<V>, i: nat, m: map<K, V>)
    requires i <= |rows|
    ensures PutFrom(rows, keyMapping, resultMapping, i, m).Success? <==> AllPut(rows, keyMapping, resultMapping, i)
    decreases |rows| - i
  {
    if i < |rows| {
      var k := keyMapping(rows[i], i);
      var v := resultMapping(rows[i], i);
      if k.Success? && v.Success? {
        PutFromSucceeds(rows, keyMapping, resultMapping, i + 1, m[k.value := v.value]);
      }
    }
  }

  /** Row `k` is where putting fails with `e`: its key mapping throws `e`, or
      its key maps and its value mapping throws `e`. */
  predicate PutFailsAt<K, V>(rows: seq<Row>, keyMapping: RowMapping<K>, resultMapping: RowMapping<V>, k: nat, e: Throwable)
    requires k < |rows|
  {
    || keyMapping(rows[k], k) == Failure(e)
    || (keyMapping(rows[k], k).Success? && resultMapping(rows[k], k) == Failure(e))
  }

  /** Putting fails with the failure of the first row whose key mapping, or
      else whose value mapping, throws; every earlier row put both. */
  lemma {:induction false} PutFromFirstFailure<K, V>(rows: seq<Row>, keyMapping: RowMapping<K>,
                                                     resultMapping: RowMapping<V>, i: nat, m: map<K, V>)
    requires i <= |rows|
    requires PutFrom(rows, keyMapping, resultMapping, i, m).Failure?
    ensures exists k ::
              && i <= k < |rows|
              && PutFailsAt(rows, keyMapping, resultMapping, k, PutFrom(rows, keyMapping, resultMapping, i, m).error)
              && forall j :: i <= j < k ==> keyMapping(rows[j], j).Success? && resultMapping(rows[j], j).Success?
    decreases |rows| - i
  {
    var e := PutFrom(rows, keyMapping, resultMapping, i, m).error;
    var key := keyMapping(rows[i], i);
    var v := resultMapping(rows[i], i);
    if key.Success? && v.Success? {
      PutFromFirstFailure(rows, keyMapping, resultMapping, i + 1, m[key.value := v.value]);
      var k :| && i + 1 <= k < |rows|
               && PutFailsAt(rows, keyMapping, resultMapping, k, e)
               && forall j :: i + 1 <= j < k ==> keyMapping(rows[j], j).Success? && resultMapping(rows[j], j).Success?;
      assert forall j :: i <= j < k ==> keyMapping(rows[j], j).Success? && resultMapping(rows[j], j).Success?;
    } else {
      assert PutFailsAt(rows, keyMapping, resultMapping, i, e);
    }
  }

  /** When putting `rows[i..]` into `m` succeeds, the keys are those of `m`
      and of the rows, and the map grows by at most one entry per row. */
  lemma {:induction false} PutFromKeys<K, V>(rows: seq<Row>, keyMapping: RowMapping<K>,
                                             resultMapping: RowMapping<V>, i: nat, m: map<K, V>)
    requires i <= |rows|
    requires AllPut(rows, keyMapping, resultMapping, i)
    ensures PutFrom(rows, keyMapping, resultMapping, i, m).Success?
    ensures |PutFrom(rows, keyMapping, resultMapping, i, m).value| <= |m| + |rows| - i
    ensures forall key :: key in PutFrom(rows, keyMapping, resultMapping, i, m).value <==>
      key in m || KeyOfSomeRow(rows, keyMapping, i, key)
    ensures forall k :: i <= k < |rows| ==>
      keyMapping(rows[k], k).value in PutFrom(rows, keyMapping, resultMapping, i, m).value
    decreases |rows| - i
  {
    PutFromSucceeds(rows, keyMapping, resultMapping, i, m);
    if i < |rows| {
      var k := keyMapping(rows[i], i).value;
      var v := resultMapping(rows[i], i).value;
      var m' := m[k := v];
      PutFromKeys(rows, keyMapping, resultMapping, i + 1, m');
      var r := PutFrom(rows, keyMapping, resultMapping, i, m).value;
      assert r == PutFrom(rows, keyMapping, resultMapping, i + 1, m').value;
      assert |m'| <= |m| + 1;
      assert KeyOfSomeRow(rows, keyMapping, i, k);
      forall key | KeyOfSomeRow(rows, keyMapping, i, key)
        ensures key in r
      {
        var j :| i <= j < |rows| && keyMapping(rows[j], j) == Success(key);
        if j > i {
          assert KeyOfSomeRow(rows, keyMapping, i + 1, key);
        }
      }
      forall key | KeyOfSomeRow(rows, keyMapping, i + 1, key)
        ensures KeyOfSomeRow(rows, keyMapping, i, key)
      {
        var j :| i + 1 <= j < |rows| && keyMapping(rows[j], j) == Success(key);
      }
      forall j | i <= j < |rows|
        ensures keyMapping(rows[j], j).value in r
      {
        assert KeyOfSomeRow(rows, keyMapping, i, keyMapping(rows[j], j).value);
      }
    }
  }

  /** When putting `rows[i..]` into `m` succeeds, keys of `m` that no row
      produced keep their value. */
  lemma {:induction false} PutFromUntouched<K, V>(rows: seq<Row>, keyMapping: RowMapping<K>,
                                                  resultMapping: RowMapping<V>, i: nat, m: map<K, V>)
    requires i <= |rows|
    requires AllPut(rows, keyMapping, resultMapping, i)
    ensures PutFrom(rows, keyMapping, resultMapping, i, m).Success?
    ensures forall key :: key in m && !KeyOfSomeRow(rows, keyMapping, i, key) ==>
      && key in PutFrom(rows, keyMapping, resultMapping, i, m).value
      && PutFrom(rows, keyMapping, resultMapping, i, m).value[key] == m[key]
    decreases |rows| - i
  {
    PutFromSucceeds(rows, keyMapping, resultMapping, i, m);
    if i < |rows| {
      var k := keyMapping(rows[i], i).value;
      var m' := m[k := resultMapping(rows[i], i).value];
      PutFromUntouched(rows, keyMapping, resultMapping, i + 1, m');
      var r := PutFrom(rows, keyMapping, resultMapping, i, m).value;
      assert r == PutFrom(rows, keyMapping, resultMapping, i + 1, m').value;
      forall key | key in m && !KeyOfSomeRow(rows, keyMapping, i, key)
        ensures key in r && r[key] == m[key]
      {
        assert !KeyOfSomeRow(rows, keyMapping, i + 1, key);
        assert key != k;
      }
    }
  }

  /** When putting `rows[i..]` into `m` succeeds, a row's value survives
      unless a later row has an equal key. */
  lemma {:induction false} PutFromLastWins<K, V>(rows: seq<Row>, keyMapping: RowMapping<K>,
                                                 resultMapping: RowMapping<V>, i: nat, m: map<K, V>)
    requires i <= |rows|
    requires AllPut(rows, keyMapping, resultMapping, i)
    ensures PutFrom(rows, keyMapping, resultMapping, i, m).Success?
    ensures forall k :: i <= k < |rows| && LastWithItsKey(rows, keyMapping, k) ==>
      && keyMapping(rows[k], k).value in PutFrom(rows, keyMapping, resultMapping, i, m).value
      && PutFrom(rows, keyMapping, resultMapping, i, m).value[keyMapping(rows[k], k).value] == resultMapping(rows[k], k).value
    decreases |rows| - i
  {
    PutFromSucceeds(rows, keyMapping, resultMapping, i, m);
    if i < |rows| {
      var k := keyMapping(rows[i], i).value;
      var v := resultMapping(rows[i], i).value;
      var m' := m[k := v];
      PutFromLastWins(rows, keyMapping, resultMapping, i + 1, m');
      var r := PutFrom(rows, keyMapping, resultMapping, i, m).value;
      assert r == PutFrom(rows, keyMapping, resultMapping, i + 1, m').value;
      if LastWithItsKey(rows, keyMapping, i) {
        forall j | i + 1 <= j < |rows|
          ensures keyMapping(rows[j], j) != Success(k)
        {
        }
        PutFromUntouched(rows, keyMapping, resultMapping, i + 1, m');
      }
    }
  }

  // ---------------------------------------------------------------------------
  // Properties of the operations

  /** A successful `queryList` holds one element per row of the cursor,
      element i being row i mapped with index i. */
  lemma QueryListContents<T>(conn: Option<Connection>, sql: Option<string>, binding: Option<StatementBinding>,
                             mapping: Option<ResultMapping<T>>)
    requires QueryListResult(conn, sql, binding, mapping).Success?
    ensures conn.Some? && sql.Some? && mapping.Some? && Cursor(conn.value, sql.value, binding).Success?
    ensures var rows := Cursor(conn.value, sql.value, binding).value;
      var xs := QueryListResult(conn, sql, binding, mapping).value;
      && |xs| == |rows|
      && forall i :: 0 <= i < |rows| ==> mapping.value(rows[i], i) == Success(xs[i])
  {
    MapFromContents(Cursor(conn.value, sql.value, binding).value, mapping.value, 0, []);
  }

  /** When the cursor opened but `queryList` failed, the failure is that of
      the first row whose mapping threw, translated. */
  lemma QueryListFailure<T>(conn: Option<Connection>, sql: Option<string>, binding: Option<StatementBinding>,
                            mapping: Option<ResultMapping<T>>)
    requires conn.Some? && sql.Some? && mapping.Some?
    requires Cursor(conn.value, sql.value, binding).Success?
    requires QueryListResult(conn, sql, binding, mapping).Failure?
    ensures var rows := Cursor(conn.value, sql.value, binding).value;
      exists k ::
        && 0 <= k < |rows|
        && mapping.value(rows[k], k).Failure?
        && QueryListResult(conn, sql, binding, mapping).error == WrapException(mapping.value(rows[k], k).error)
        && forall j :: 0 <= j < k ==> mapping.value(rows[j], j).Success?
  {
    var rows := Cursor(conn.value, sql.value, binding).value;
    MapFromFirstFailure(rows, mapping.value, 0, []);
  }

  /** A successful `queryMap` maps every row's key and value; it holds at most
      one entry per row, its keys are exactly those the rows map to, and each
      key holds the value of the last row that maps to it. */
  lemma QueryMapContents<K, T>(conn: Option<Connection>, sql: Option<string>, binding: Option<StatementBinding>,
                               resultMapping: Option<ResultMapping<T>>, keyMapping: Option<ResultMapping<K>>)
    requires QueryMapResult(conn, sql, binding, resultMapping, keyMapping).Success?
    ensures conn.Some? && sql.Some? && resultMapping.Some? && keyMapping.Some?
    ensures Cursor(conn.value, sql.value, binding).Success?
    ensures AllPut(Cursor(conn.value, sql.value, binding).value, keyMapping.value, resultMapping.value, 0)
    ensures var rows := Cursor(conn.value, sql.value, binding).value;
      var m := QueryMapResult(conn, sql, binding, resultMapping, keyMapping).value;
      && |m| <= |rows|
      && (forall key :: key in m <==> KeyOfSomeRow(rows, keyMapping.value, 0, key))
      && (forall k :: 0 <= k < |rows| ==> keyMapping.value(rows[k], k).value in m)
      && forall k :: 0 <= k < |rows| && LastWithItsKey(rows, keyMapping.value, k) ==>
           m[keyMapping.value(rows[k], k).value] == resultMapping.value(rows[k], k).value
  {
    var rows := Cursor(conn.value, sql.value, binding).value;
    PutFromSucceeds(rows, keyMapping.value, resultMapping.value, 0, map[]);
    PutFromKeys(rows, keyMapping.value, resultMapping.value, 0, map[]);
    PutFromLastWins(rows, keyMapping.value, resultMapping.value, 0, map[]);
  }

  /** When the cursor opened but `queryMap` failed, the failure is that of the
      first row whose key mapping, or else whose value mapping, threw,
      translated. */
  lemma QueryMapFailure<K, T>(conn: Option<Connection>, sql: Option<string>, binding: Option<StatementBinding>,
                                  resultMapping: Option<ResultMapping<T>>, keyMapping: Option<ResultMapping<K>>)
    requires conn.Some? && sql.Some? && resultMapping.Some? && keyMapping.Some?
    requires Cursor(conn.value, sql.value, binding).Success?
    requires QueryMapResult(conn, sql, binding, resultMapping, keyMapping).Failure?
    ensures var rows := Cursor(conn.value, sql.value, binding).value;
      exists k, e ::
        && 0 <= k < |rows|
        && PutFailsAt(rows, keyMapping.value, resultMapping.value, k, e)
        && QueryMapResult(conn, sql, binding, resultMapping, keyMapping).error == WrapException(e)
        && forall j :: 0 <= j < k ==> keyMapping.value(rows[j], j).Success? && resultMapping.value(rows[j], j).Success?
  {
    var rows := Cursor(conn.value, sql.value, binding).value;
    PutFromFirstFailure(rows, keyMapping.value, resultMapping.value, 0, map[]);
    var e := PutFrom(rows, keyMapping.value, resultMapping.value, 0, map[]).error;
    var k :| && 0 <= k < |rows|
             && PutFailsAt(rows, keyMapping.value, resultMapping.value, k, e)
             && forall j :: 0 <= j < k ==> keyMapping.value(rows[j], j).Success? && resultMapping.value(rows[j], j).Success?;
    assert QueryMapResult(conn, sql, binding, resultMapping, keyMapping).error == WrapException(e);
  }

  /** `query` is the head of `queryList` on the same arguments: when the list
      succeeds, query returns its first element, or null for an empty list. */
  lemma QueryIsHeadOfQueryList<T>(conn: Option<Connection>, sql: Option<string>, binding: Option<StatementBinding>,
                                  mapping: Option<ResultMapping<T>>)
    requires QueryListResult(conn, sql, binding, mapping).Success?
    ensures var xs := QueryListResult(conn, sql, binding, mapping).value;
      Query(conn, sql, binding, mapping) == Success(if xs == [] then None else xs[0])
  {
    var rows := Cursor(conn.value, sql.value, binding).value;
    MapFromContents(rows, mapping.value, 0, []);
  }

  // ---------------------------------------------------------------------------
  // Cascading builders: each step copies what was given so far and adds one
  // piece; the terminal calls forward to the operations above, an unbound
  // builder passing a null binding.

  /** `builder(sql)` */
  function NewBuilder(sql: Option<string>): Builder {
    Builder(sql)
  }

  datatype Builder = Builder(sql: Option<string>)
  {
    function ExecuteUpdate(conn: Option<Connection>): (r: Result<int, Throwable>)
      ensures r == Update(conn, sql, None)
    {
      Update(conn, sql, None)
    }

    function WithStatementBinding(statementBinding: Option<StatementBinding>): BoundBuilder {
      BoundBuilder(sql, statementBinding)
    }

    function WithResultMapping<T>(resultMapping: Option<ResultMapping<T>>): ResultBuilder<T> {
      ResultBuilder(sql, resultMapping)
    }
  }

  datatype BoundBuilder = BoundBuilder(sql: Option<string>, statementBinding: Option<StatementBinding>)
  {
    function ExecuteUpdate(conn: Option<Connection>): (r: Result<int, Throwable>)
      ensures r == Update(conn, sql, statementBinding)
    {
      Update(conn, sql, statementBinding)
    }

    function ExecuteInsert(conn: Option<Connection>): (r: Result<Option<Value>, Throwable>)
      ensures r == Insert(conn, sql, statementBinding)
    {
      Insert(conn, sql, statementBinding)
    }

    function WithResultMapping<T>(resultMapping: Option<ResultMapping<T>>): BoundResultBuilder<T> {
      BoundResultBuilder(sql, statementBinding, resultMapping)
    }
  }

  datatype ResultBuilder<T> = ResultBuilder(sql: Option<string>, resultMapping: Option<ResultMapping<T>>)
  {
    function ExecuteQuery(conn: Option<Connection>): (r: Result<Option<T>, Throwable>)
      ensures r == Query(conn, sql, None, resultMapping)
    {
      Query(conn, sql, None, resultMapping)
    }

    method ExecuteQueryList(conn: Option<Connection>) returns (r: Result<seq<Option<T>>, Throwable>)
      ensures r == QueryListResult(conn, sql, None, resultMapping)
    {
      r := QueryList(conn, sql, None, resultMapping);
    }

    function WithStatementBinding(statementBinding: Option<StatementBinding>): BoundResultBuilder<T> {
      BoundResultBuilder(sql, statementBinding, resultMapping)
    }

    function WithKeyMapping<K(==)>(keyMapping: Option<ResultMapping<K>>): KeyedResultBuilder<K, T> {
      KeyedResultBuilder(sql, resultMapping, keyMapping)
    }
  }

  datatype BoundResultBuilder<T> = BoundResultBuilder(sql: Option<string>, statementBinding: Option<StatementBinding>,
                                                      resultMapping: Option<ResultMapping<T>>)
  {
    function ExecuteQuery(conn: Option<Connection>): (r: Result<Option<T>, Throwable>)
      ensures r == Query(conn, sql, statementBinding, resultMapping)
    {
      Query(conn, sql, statementBinding, resultMapping)
    }

    method ExecuteQueryList(conn: Option<Connection>) returns (r: Result<seq<Option<T>>, Throwable>)
      ensures r == QueryListResult(conn, sql, statementBinding, resultMapping)
    {
      r := QueryList(conn, sql, statementBinding, resultMapping);
    }

    function WithKeyMapping<K(==)>(keyMapping: Option<ResultMapping<K>>): BoundKeyedResultBuilder<K, T> {
      BoundKeyedResultBuilder(sql, statementBinding, resultMapping, keyMapping)
    }
  }

  datatype KeyedResultBuilder<K(==), T> = KeyedResultBuilder(sql: Option<string>, resultMapping: Option<ResultMapping<T>>,
                                                         keyMapping: Option<ResultMapping<K>>)
  {
    method ExecuteQueryMapped(conn: Option<Connection>) returns (r: Result<map<Option<K>, Option<T>>, Throwable>)
      ensures r == QueryMapResult(conn, sql, None, resultMapping, keyMapping)
    {
      r := QueryMap(conn, sql, None, resultMapping, keyMapping);
    }

    function WithStatementBinding(statementBinding: Option<StatementBinding>): BoundKeyedResultBuilder<K, T> {
      BoundKeyedResultBuilder(sql, statementBinding, resultMapping, keyMapping)
    }
  }

  datatype BoundKeyedResultBuilder<K(==), T> = BoundKeyedResultBuilder(sql: Option<string>, statementBinding: Option<StatementBinding>,
                                                                   resultMapping: Option<ResultMapping<T>>,
                                                                   keyMapping: Option<ResultMapping<K>>)
  {
    method ExecuteQueryMapped(conn: Option<Connection>) returns (r: Result<map<Option<K>, Option<T>>, Throwable>)
      ensures r == QueryMapResult(conn, sql, statementBinding, resultMapping, keyMapping)
    {
      r := QueryMap(conn, sql, statementBinding, resultMapping, keyMapping);
    }
  }

  /** The cascade does not depend on the order in which the binding, the
      result mapping and the key mapping are given: every route reaches the
      same fully bound builder. */
  lemma CascadeOrderIrrelevant<K, T>(sql: Option<string>, statementBinding: Option<StatementBinding>,
                                     resultMapping: Option<ResultMapping<T>>, keyMapping: Option<ResultMapping<K>>)
    ensures NewBuilder(sql).WithStatementBinding(statementBinding).WithResultMapping(resultMapping)
         == NewBuilder(sql).WithResultMapping(resultMapping).WithStatementBinding(statementBinding)
    ensures NewBuilder(sql).WithStatementBinding(statementBinding).WithResultMapping(resultMapping).WithKeyMapping(keyMapping)
         == NewBuilder(sql).WithResultMapping(resultMapping).WithKeyMapping(keyMapping).WithStatementBinding(statementBinding)
  {
  }

  /** A builder without a binding behaves as one bound to no binding: the
      statement's slots stay empty either way. */
  lemma UnboundIsNullBinding<T>(sql: Option<string>, resultMapping: Option<ResultMapping<T>>, conn: Option<Connection>)
    ensures NewBuilder(sql).WithResultMapping(resultMapping).ExecuteQuery(conn)
         == NewBuilder(sql).WithStatementBinding(None).WithResultMapping(resultMapping).ExecuteQuery(conn)
    ensures NewBuilder(sql).ExecuteUpdate(conn) == NewBuilder(sql).WithStatementBinding(None).ExecuteUpdate(conn)
    ensures conn.Some? && sql.Some? ==>
      Cursor(conn.value, sql.value, None) == conn.value.executeQuery(Raw(sql.value), map[])
  {
  }
}
