/** `cyeagy.dorm.Dorm`: the joinless ORM. Each operation prepares the template
    generated for the entity's table descriptor, binds positional parameters in
    descriptor order, executes, and for reads builds entities from the rows. */
module Dorm {
  import opened Wrappers
  import opened SqlValues
  import opened Schema
  import opened Jdbc
  import opened TypeMappers
  import opened DormStatement

  /** An entity instance: the value every field of its type currently holds. */
  type Entity = map<Field, Option<Value>>

  /** The entity is an instance of the descriptor's type: it has every field. */
  predicate HasFields(table: Table, e: Entity) {
    table.pk in e && forall c :: c in table.columns ==> c in e
  }

  // ---------------------------------------------------------------------------
  // Registry dispatch with the untyped fallbacks (setParameter, setField, copyField)

  /** The slot a key value is bound to: the registered object setter for its
      class, else `setObject`. */
  function KeyParam(reg: Registry, key: Value): Param {
    match reg.objectSetter(key)
    case Some(p) => p
    case None => ObjectParam(Some(key))
  }

  /** The slot a field value is bound to: the registered field setter for its
      declared type, else `setObject` with the field's value. */
  function FieldParam(reg: Registry, f: Field, x: Option<Value>): Param {
    match reg.fieldSetter(f.ftype)
    case Some(setter) => setter(x)
    case None => ObjectParam(x)
  }

  /** What `setField` reads for a field: the registered result writer, else
      `getObject` by column label (no index) or by 1-based index. */
  function ReadField(reg: Registry, row: Row, f: Field, idx: Option<int>): (r: Result<Option<Value>, Throwable>)
    ensures reg.resultWriter(f.ftype).Some? ==> r == reg.resultWriter(f.ftype).value(row, f, idx)
    ensures reg.resultWriter(f.ftype).None? && idx.None? ==>
      && (r.Success? <==> f.column in row.byLabel)
      && (r.Success? ==> r.value == row.byLabel[f.column])
    ensures reg.resultWriter(f.ftype).None? && idx.Some? ==>
      && (r.Success? <==> 1 <= idx.value <= |row.byIndex|)
      && (r.Success? ==> r.value == row.byIndex[idx.value - 1])
  {
    match reg.resultWriter(f.ftype)
    case Some(writer) => writer(row, f, idx)
    case None => if idx.None? then row.GetObject(f.column) else row.GetObjectAt(idx.value)
  }

  /** What `copyField` writes into the target: the registered copier applied to
      the origin's value, else the origin's value itself. */
  function CopiedValue(reg: Registry, f: Field, x: Option<Value>): (r: Option<Value>)
    ensures reg.copier(f.ftype).None? ==> r == x
    ensures CopiersFaithful(reg) ==> r == x
  {
    match reg.copier(f.ftype)
    case Some(copy) => copy(x)
    case None => x
  }

  /** `copyField(field, target, origin)`. */
  function CopyField(reg: Registry, f: Field, target: Entity, origin: Entity): (r: Entity)
    requires f in origin
    ensures r.Keys == target.Keys + {f}
    ensures r[f] == CopiedValue(reg, f, origin[f])
    ensures forall g :: g in target && g != f ==> r[g] == target[g]
  {
    target[f := CopiedValue(reg, f, origin[f])]
  }

  /** A zero-initialised field: primitives hold their zero, references null. */
  function DefaultValue(t: FieldType): Option<Value> {
    if t.Primitive? then Some(t.zero) else None
  }

  /** `constructNewInstance`: a fresh entity with every field at its default. */
  function NewInstance(table: Table): (e: Entity)
    ensures e.Keys == table.Fields()
  {
    map f | f in table.Fields() :: DefaultValue(f.ftype)
  }

  /** Whether insert treats the primary key as supplied: a primitive key never
      is (its zero cannot be told from "absent"), a boxed key when non-null. */
  function KeyProvided(table: Table, e: Entity): bool
    requires table.pk in e
  {
    !table.pk.ftype.IsPrimitive() && e[table.pk].Some?
  }

  // ---------------------------------------------------------------------------
  // Specification of the bound parameter slots

  /** The slots written by binding `fields` one after another at consecutive
      indices starting from `first`. */
  function Bindings(reg: Registry, e: Entity, fields: seq<Field>, first: int): map<int, Param>
    requires forall f :: f in fields ==> f in e
    decreases |fields|
  {
    if fields == [] then map[]
    else
      var n := |fields| - 1;
      Bindings(reg, e, fields[..n], first)[first + n := FieldParam(reg, fields[n], e[fields[n]])]
  }

  /** Insert binds the key first when it is provided, then every column. */
  function InsertBindings(reg: Registry, table: Table, e: Entity): map<int, Param>
    requires HasFields(table, e)
  {
    Bindings(reg, e, (if KeyProvided(table, e) then [table.pk] else []) + table.columns, 1)
  }

  /** Update binds every column, then the key. */
  function UpdateBindings(reg: Registry, table: Table, e: Entity): map<int, Param>
    requires HasFields(table, e)
  {
    Bindings(reg, e, table.columns + [table.pk], 1)
  }

  // ---------------------------------------------------------------------------
  // Specification of entity reconstruction

  /** Reading `fields[j..]` by label into `e`, in order; the first read that
      throws ends the pass. */
  function ReadColumnsFrom(reg: Registry, row: Row, fields: seq<Field>, j: nat, e: Entity): Result<Entity, Throwable>
    decreases |fields| - j
  {
    if j >= |fields| then Success(e)
    else
      match ReadField(reg, row, fields[j], None)
      case Failure(err) => Failure(err)
      case Success(v) => ReadColumnsFrom(reg, row, fields, j + 1, e[fields[j] := v])
  }

  /** A new instance filled from one row: the primary key, then each column in
      descriptor order. */
  function Materialize(reg: Registry, table: Table, row: Row): Result<Entity, Throwable> {
    match ReadField(reg, row, table.pk, None)
    case Failure(err) => Failure(err)
    case Success(k) => ReadColumnsFrom(reg, row, table.columns, 0, NewInstance(table)[table.pk := k])
  }

  /** One entity per row of `rows[i..]`, added to `acc`. */
  function MaterializeFrom(reg: Registry, table: Table, rows: seq<Row>, i: nat, acc: set<Entity>): Result<set<Entity>, Throwable>
    decreases |rows| - i
  {
    if i >= |rows| then Success(acc)
    else
      match Materialize(reg, table, rows[i])
      case Failure(err) => Failure(err)
      case Success(e) => MaterializeFrom(reg, table, rows, i + 1, acc + {e})
  }

  /** Copying `fields[j..]` from `origin` into `target`, in order. */
  function CopyColumnsFrom(reg: Registry, fields: seq<Field>, j: nat, target: Entity, origin: Entity): Entity
    requires forall f :: f in fields ==> f in origin
    decreases |fields| - j
  {
    if j >= |fields| then target
    else CopyColumnsFrom(reg, fields, j + 1, CopyField(reg, fields[j], target, origin), origin)
  }

  /** Select by key, given what the store answered. */
  function SelectOutcome(reg: Registry, table: Table, cursor: Result<seq<Row>, Throwable>): Result<Option<Entity>, Throwable> {
    match cursor
    case Failure(err) => Failure(err)
    case Success(rows) =>
      if rows == [] then Success(None)
      else
        match Materialize(reg, table, rows[0])
        case Failure(err) => Failure(err)
        case Success(e) => Success(Some(e))
  }

  /** Bulk select, given what the store answered. */
  function SelectManyOutcome(reg: Registry, table: Table, cursor: Result<seq<Row>, Throwable>): Result<set<Entity>, Throwable> {
    match cursor
    case Failure(err) => Failure(err)
    case Success(rows) => MaterializeFrom(reg, table, rows, 0, {})
  }

  /** Insert, given what executing the statement reported. */
  function InsertOutcome(reg: Registry, table: Table, e: Entity, exec: Result<Execution, Throwable>): Result<Option<Entity>, Throwable>
    requires HasFields(table, e)
  {
    match exec
    case Failure(err) => Failure(err)
    case Success(x) =>
      if KeyProvided(table, e) then Success(Some(e))
      else if x.generatedKeys == [] then Success(None)
      else
        match GeneratedEntity(reg, table, e, x.generatedKeys[0])
        case Failure(err) => Failure(err)
        case Success(g) => Success(Some(g))
  }

  /** The entity insert returns for a generated key: a new instance holding the
      key read from column 1 of the key row, and a copy of every column. */
  function GeneratedEntity(reg: Registry, table: Table, e: Entity, keyRow: Row): Result<Entity, Throwable>
    requires HasFields(table, e)
  {
    match ReadField(reg, keyRow, table.pk, Some(1))
    case Failure(err) => Failure(err)
    case Success(k) => Success(CopyColumnsFrom(reg, table.columns, 0, NewInstance(table)[table.pk := k], e))
  }

  // ---------------------------------------------------------------------------
  // The private helpers of the ORM, on a statement

  /** `setParameter(ps, value, idx)` for a key. */
  method SetKeyParameter(bps: BetterPreparedStatement, reg: Registry, key: Value, idx: int)
    modifies bps.ps`params
    ensures bps.ps.params == old(bps.ps.params)[idx := KeyParam(reg, key)]
  {
    var setter := reg.objectSetter(key);
    if setter.Some? {
      bps.ps.SetParam(idx, setter.value);
    } else {
      bps.SetObject(idx, Some(key));
    }
  }

  /** `setParameter(ps, field, target, idx)`. */
  method SetFieldParameter(bps: BetterPreparedStatement, reg: Registry, f: Field, target: Entity, idx: int)
    requires f in target
    modifies bps.ps`params
    ensures bps.ps.params == old(bps.ps.params)[idx := FieldParam(reg, f, target[f])]
  {
    var setter := reg.fieldSetter(f.ftype);
    if setter.Some? {
      bps.ps.SetParam(idx, setter.value(target[f]));
    } else {
      bps.SetObject(idx, target[f]);
    }
  }

  /** `for (Field field : columns) setParameter(ps, field, entity, ++idx)`:
      the columns take the slots after the `|bound|` already bound ones. */
  method BindColumns(bps: BetterPreparedStatement, reg: Registry, entity: Entity,
                     ghost bound: seq<Field>, columns: seq<Field>, idx0: int) returns (idx: int)
    requires forall f :: f in bound ==> f in entity
    requires forall f :: f in columns ==> f in entity
    requires idx0 == |bound| && bps.ps.params == Bindings(reg, entity, bound, 1)
    modifies bps.ps`params
    ensures idx == |bound| + |columns|
    ensures bps.ps.params == Bindings(reg, entity, bound + columns, 1)
  {
    idx := idx0;
    assert bound + columns[..0] == bound;
    for j := 0 to |columns|
      invariant idx == |bound| + j
      invariant bps.ps.params == Bindings(reg, entity, bound + columns[..j], 1)
    {
      idx := idx + 1;
      SetFieldParameter(bps, reg, columns[j], entity, idx);
      assert bound + columns[..j + 1] == (bound + columns[..j]) + [columns[j]];
      BindingsSnoc(reg, entity, bound + columns[..j], columns[j], 1);
    }
    assert columns[..|columns|] == columns;
  }

  /** Build one entity from the current row: construct a new instance, write
      the primary key, then each column in descriptor order. */
  method ReadEntity(reg: Registry, table: Table, row: Row) returns (r: Result<Entity, Throwable>)
    ensures r == Materialize(reg, table, row)
  {
    var result := NewInstance(table);
    var k := ReadField(reg, row, table.pk, None);
    if k.Failure? {
      return Failure(k.error);
    }
    result := result[table.pk := k.value];
    ghost var start := result;
    for j := 0 to |table.columns|
      invariant ReadColumnsFrom(reg, row, table.columns, 0, start) == ReadColumnsFrom(reg, row, table.columns, j, result)
    {
      var v := ReadField(reg, row, table.columns[j], None);
      if v.Failure? {
        return Failure(v.error);
      }
      result := result[table.columns[j] := v.value];
    }
    r := Success(result);
  }

  /** Build the entity insert returns from the first generated-key row:
      construct a new instance, write the key from column 1, then copy every
      column from the inserted entity. */
  method ReadGeneratedEntity(reg: Registry, table: Table, entity: Entity, keyRow: Row) returns (r: Result<Entity, Throwable>)
    requires HasFields(table, entity)
    ensures r == GeneratedEntity(reg, table, entity, keyRow)
  {
    var k := ReadField(reg, keyRow, table.pk, Some(1));
    if k.Failure? {
      return Failure(k.error);
    }
    var result := NewInstance(table)[table.pk := k.value];
    ghost var start := result;
    for j := 0 to |table.columns|
      invariant CopyColumnsFrom(reg, table.columns, 0, start, entity) == CopyColumnsFrom(reg, table.columns, j, result, entity)
    {
      result := CopyField(reg, table.columns[j], result, entity);
    }
    r := Success(result);
  }

  // ---------------------------------------------------------------------------
  // The five operations

  /** Select by primary key: the key is bound at slot 1 and nothing else is
      bound; a null key fails when it is bound. */
  method Select(conn: Connection, reg: Registry, table: Table, key: Option<Value>)
    returns (r: Result<Option<Entity>, Throwable>, ghost ps: PreparedStatement)
    ensures fresh(ps) && ps.conn == conn && ps.sql == Generated(SelectByKey(table))
    ensures !ps.returnGeneratedKeys && !ps.keysRequested
    ensures key.None? ==> r == Failure(NullPointerException) && ps.params == map[]
    ensures key.Some? ==> ps.params == map[1 := KeyParam(reg, key.value)]
    ensures key.Some? ==> r == SelectOutcome(reg, table, conn.executeQuery(ps.sql, ps.params))
  {
    var bps := BetterPreparedStatement.Create(conn, Generated(SelectByKey(table)), false);
    ps := bps.ps;
    if key.None? {
      r := Failure(NullPointerException);
      return;
    }
    SetKeyParameter(bps, reg, key.value, 1);
    var cursor := bps.ExecuteQuery();
    if cursor.Failure? {
      r := Failure(cursor.error);
      return;
    }
    var rows := cursor.value;
    if rows == [] {
      r := Success(None);
    } else {
      var e := ReadEntity(reg, table, rows[0]);
      r := if e.Failure? then Failure(e.error) else Success(Some(e.value));
    }
  }

  /** Bulk select by a collection of keys: the keys are deduplicated into a set
      that is bound as the single slot 1; every row adds one entity. A null
      collection fails before any statement is prepared. */
  method SelectMany(conn: Connection, reg: Registry, table: Table, keys: Option<seq<Value>>)
    returns (r: Result<set<Entity>, Throwable>, ghost ps: PreparedStatement?)
    ensures keys.None? ==> r == Failure(NullPointerException) && ps == null
    ensures keys.Some? ==> ps != null && fresh(ps) && ps.conn == conn
    ensures keys.Some? ==> ps.sql == Generated(BulkSelectByKeys(table))
    ensures keys.Some? ==> !ps.returnGeneratedKeys && !ps.keysRequested
    ensures keys.Some? ==> ps.params == map[1 := KeyArray(set k | k in keys.value)]
    ensures keys.Some? ==> r == SelectManyOutcome(reg, table, conn.executeQuery(ps.sql, ps.params))
  {
    if keys.None? {
      r, ps := Failure(NullPointerException), null;
      return;
    }
    var keySet := set k | k in keys.value;
    var bps := BetterPreparedStatement.Create(conn, Generated(BulkSelectByKeys(table)), false);
    ps := bps.ps;
    bps.SetArray(1, keySet);
    var cursor := bps.ExecuteQuery();
    if cursor.Failure? {
      r := Failure(cursor.error);
      return;
    }
    var rows := cursor.value;
    var results: set<Entity> := {};
    var i := 0;
    while i < |rows|
      invariant 0 <= i <= |rows|
      invariant MaterializeFrom(reg, table, rows, 0, {}) == MaterializeFrom(reg, table, rows, i, results)
      invariant bps.ps.params == map[1 := KeyArray(keySet)] && !bps.ps.keysRequested
    {
      var e := ReadEntity(reg, table, rows[i]);
      if e.Failure? {
        r := Failure(e.error);
        return;
      }
      results := results + {e.value};
      i := i + 1;
    }
    r := Success(results);
  }

  /** Insert. The key is bound only when provided; the generated key is read
      back only when it was not. */
  method Insert(conn: Connection, reg: Registry, table: Table, entity: Entity)
    returns (r: Result<Option<Entity>, Throwable>, ghost ps: PreparedStatement)
    requires HasFields(table, entity)
    ensures fresh(ps) && ps.conn == conn && ps.returnGeneratedKeys
    ensures ps.sql == Generated(InsertRow(table, KeyProvided(table, entity)))
    ensures ps.params == InsertBindings(reg, table, entity)
    ensures ps.keysRequested <==> !KeyProvided(table, entity) && conn.execute(ps.sql, ps.params).Success?
    ensures r == InsertOutcome(reg, table, entity, conn.execute(ps.sql, ps.params))
  {
    var provided := KeyProvided(table, entity);
    var bps := BetterPreparedStatement.Create(conn, Generated(InsertRow(table, provided)), true);
    ps := bps.ps;
    var idx := 0;
    if provided {
      idx := idx + 1;
      SetFieldParameter(bps, reg, table.pk, entity, idx);
    }
    ghost var bound := if provided then [table.pk] else [];
    BindingsSnoc(reg, entity, [], table.pk, 1);
    idx := BindColumns(bps, reg, entity, bound, table.columns, idx);
    var exec := bps.Execute();
    if exec.Failure? {
      r := Failure(exec.error);
      return;
    }
    if !provided {
      var keys := bps.GetGeneratedKeys();
      if keys != [] {
        var g := ReadGeneratedEntity(reg, table, entity, keys[0]);
        r := if g.Failure? then Failure(g.error) else Success(Some(g.value));
      } else {
        r := Success(None);
      }
    } else {
      r := Success(Some(entity));
    }
  }

  /** Update: every column in descriptor order, then the key last. */
  method Update(conn: Connection, reg: Registry, table: Table, entity: Entity)
    returns (r: Result<(), Throwable>, ghost ps: PreparedStatement)
    requires HasFields(table, entity)
    ensures fresh(ps) && ps.conn == conn && ps.sql == Generated(UpdateRow(table))
    ensures !ps.returnGeneratedKeys && !ps.keysRequested
    ensures ps.params == UpdateBindings(reg, table, entity)
    ensures conn.execute(ps.sql, ps.params).Failure? ==> r == Failure(conn.execute(ps.sql, ps.params).error)
    ensures conn.execute(ps.sql, ps.params).Success? ==> r == Success(())
  {
    var bps := BetterPreparedStatement.Create(conn, Generated(UpdateRow(table)), false);
    ps := bps.ps;
    var idx := 0;
    idx := BindColumns(bps, reg, entity, [], table.columns, idx);
    assert [] + table.columns == table.columns;
    idx := idx + 1;
    SetFieldParameter(bps, reg, table.pk, entity, idx);
    BindingsSnoc(reg, entity, table.columns, table.pk, 1);
    var exec := bps.Execute();
    r := if exec.Failure? then Failure(exec.error) else Success(());
  }

  /** Delete by primary key: the key is bound at slot 1. */
  method Delete(conn: Connection, reg: Registry, table: Table, key: Option<Value>)
    returns (r: Result<(), Throwable>, ghost ps: PreparedStatement)
    ensures fresh(ps) && ps.conn == conn && ps.sql == Generated(DeleteByKey(table))
    ensures !ps.returnGeneratedKeys && !ps.keysRequested
    ensures key.None? ==> r == Failure(NullPointerException) && ps.params == map[]
    ensures key.Some? ==> ps.params == map[1 := KeyParam(reg, key.value)]
    ensures key.Some? && conn.execute(ps.sql, ps.params).Failure? ==>
      r == Failure(conn.execute(ps.sql, ps.params).error)
    ensures key.Some? && conn.execute(ps.sql, ps.params).Success? ==> r == Success(())
  {
    var bps := BetterPreparedStatement.Create(conn, Generated(DeleteByKey(table)), false);
    ps := bps.ps;
    if key.None? {
      r := Failure(NullPointerException);
      return;
    }
    SetKeyParameter(bps, reg, key.value, 1);
    var exec := bps.Execute();
    r := if exec.Failure? then Failure(exec.error) else Success(());
  }

  // ---------------------------------------------------------------------------
  // Properties

  /** Binding one more field writes exactly the next slot. */
  lemma BindingsSnoc(reg: Registry, e: Entity, fields: seq<Field>, f: Field, first: int)
    requires forall g :: g in fields ==> g in e
    requires f in e
    ensures Bindings(reg, e, fields + [f], first) == Bindings(reg, e, fields, first)[first + |fields| := FieldParam(reg, f, e[f])]
  {
    assert (fields + [f])[..|fields|] == fields;
  }

  /** Binding a sequence of fields from `first` occupies exactly the slots
      `first .. first + |fields| - 1`, field j at slot `first + j`. */
  lemma {:induction false} BindingsSlots(reg: Registry, e: Entity, fields: seq<Field>, first: int)
    requires forall f :: f in fields ==> f in e
    ensures forall i :: i in Bindings(reg, e, fields, first) <==> first <= i < first + |fields|
    ensures forall j :: 0 <= j < |fields| ==>
      Bindings(reg, e, fields, first)[first + j] == FieldParam(reg, fields[j], e[fields[j]])
    decreases |fields|
  {
    if fields != [] {
      var n := |fields| - 1;
      BindingsSlots(reg, e, fields[..n], first);
      assert forall j :: 0 <= j < n ==> fields[..n][j] == fields[j];
    }
  }

  /** Insert's slots: with a provided key, the key at 1 and column j at j + 2;
      otherwise column j at j + 1. Either way the slots are 1 .. n without a gap. */
  lemma InsertSlots(reg: Registry, table: Table, e: Entity)
    requires HasFields(table, e)
    ensures forall i :: i in InsertBindings(reg, table, e) <==>
      1 <= i < (if KeyProvided(table, e) then 2 else 1) + |table.columns|
    ensures KeyProvided(table, e) ==>
      InsertBindings(reg, table, e)[1] == FieldParam(reg, table.pk, e[table.pk])
    ensures forall j :: 0 <= j < |table.columns| ==>
      InsertBindings(reg, table, e)[(if KeyProvided(table, e) then 2 else 1) + j]
        == FieldParam(reg, table.columns[j], e[table.columns[j]])
  {
    var fields := (if KeyProvided(table, e) then [table.pk] else []) + table.columns;
    BindingsSlots(reg, e, fields, 1);
    var off := if KeyProvided(table, e) then 1 else 0;
    assert forall j :: 0 <= j < |table.columns| ==> fields[off + j] == table.columns[j];
    if KeyProvided(table, e) {
      assert fields[0] == table.pk;
    }
  }

  /** Update's slots: column j at j + 1 and the key last, at n + 1. */
  lemma UpdateSlots(reg: Registry, table: Table, e: Entity)
    requires HasFields(table, e)
    ensures forall i :: i in UpdateBindings(reg, table, e) <==> 1 <= i <= |table.columns| + 1
    ensures forall j :: 0 <= j < |table.columns| ==>
      UpdateBindings(reg, table, e)[j + 1] == FieldParam(reg, table.columns[j], e[table.columns[j]])
    ensures UpdateBindings(reg, table, e)[|table.columns| + 1] == FieldParam(reg, table.pk, e[table.pk])
  {
    var fields := table.columns + [table.pk];
    BindingsSlots(reg, e, fields, 1);
    assert forall j :: 0 <= j < |table.columns| ==> fields[j] == table.columns[j];
    assert fields[|table.columns|] == table.pk;
  }

  /** A primitive key is never treated as provided, whatever it holds; a
      boxed key is provided exactly when it is non-null. */
  lemma KeyProvidedRule(table: Table, e: Entity)
    requires table.pk in e
    ensures table.pk.ftype.IsPrimitive() ==> !KeyProvided(table, e)
    ensures !table.pk.ftype.IsPrimitive() ==> (KeyProvided(table, e) <==> e[table.pk].Some?)
  {
  }

  /** Reading the columns `fields[j..]`: it succeeds exactly when every read
      does; then every read column holds what was read and every other field
      keeps its value. */
  lemma {:induction false} ReadColumnsFromContents(reg: Registry, row: Row, fields: seq<Field>, j: nat, e: Entity)
    requires j <= |fields|
    ensures ReadColumnsFrom(reg, row, fields, j, e).Success? <==>
      forall k :: j <= k < |fields| ==> ReadField(reg, row, fields[k], None).Success?
    ensures ReadColumnsFrom(reg, row, fields, j, e).Success? ==>
      var r := ReadColumnsFrom(reg, row, fields, j, e).value;
      && (forall f :: f in r <==> f in e || f in fields[j..])
      && (forall k :: j <= k < |fields| ==> r[fields[k]] == ReadField(reg, row, fields[k], None).value)
      && (forall f :: f in e && f !in fields[j..] ==> r[f] == e[f])
    decreases |fields| - j
  {
    if j < |fields| {
      var v := ReadField(reg, row, fields[j], None);
      if v.Success? {
        ReadColumnsFromContents(reg, row, fields, j + 1, e[fields[j] := v.value]);
        assert fields[j..] == [fields[j]] + fields[j + 1..];
      }
    }
  }

  /** One row makes one entity: it succeeds exactly when the key and every
      column can be read; the entity has exactly the descriptor's fields, the
      key holds what was read for it and each column what was read for it. */
  lemma MaterializeContents(reg: Registry, table: Table, row: Row)
    ensures Materialize(reg, table, row).Success? <==>
      && ReadField(reg, row, table.pk, None).Success?
      && forall c :: c in table.columns ==> ReadField(reg, row, c, None).Success?
    ensures Materialize(reg, table, row).Success? ==>
      var e := Materialize(reg, table, row).value;
      && e.Keys == table.Fields()
      && e[table.pk] == ReadField(reg, row, table.pk, None).value
      && forall c :: c in table.columns ==> e[c] == ReadField(reg, row, c, None).value
  {
    var k := ReadField(reg, row, table.pk, None);
    if k.Success? {
      var start := NewInstance(table)[table.pk := k.value];
      ReadColumnsFromContents(reg, row, table.columns, 0, start);
      assert table.columns[0..] == table.columns;
      if Materialize(reg, table, row).Success? {
        var e := Materialize(reg, table, row).value;
        assert forall c :: c in table.columns ==> exists i :: 0 <= i < |table.columns| && table.columns[i] == c;
        if table.pk in table.columns {
          var i :| 0 <= i < |table.columns| && table.columns[i] == table.pk;
          assert e[table.columns[i]] == ReadField(reg, row, table.columns[i], None).value;
        }
      }
    }
  }

  /** Materialising `rows[i..]` into `acc`: it succeeds exactly when every row
      does; then the result is `acc` plus one entity per row, so it holds at
      most `|acc| + |rows| - i` entities. */
  lemma {:induction false} MaterializeFromContents(reg: Registry, table: Table, rows: seq<Row>, i: nat, acc: set<Entity>)
    requires i <= |rows|
    ensures MaterializeFrom(reg, table, rows, i, acc).Success? <==>
      forall k :: i <= k < |rows| ==> Materialize(reg, table, rows[k]).Success?
    ensures MaterializeFrom(reg, table, rows, i, acc).Success? ==>
      var s := MaterializeFrom(reg, table, rows, i, acc).value;
      && |s| <= |acc| + |rows| - i
      && acc <= s
      && (forall k :: i <= k < |rows| ==> Materialize(reg, table, rows[k]).value in s)
      && (forall e :: e in s ==> e in acc || exists k :: i <= k < |rows| && Materialize(reg, table, rows[k]) == Success(e))
    decreases |rows| - i
  {
    if i < |rows| {
      var m := Materialize(reg, table, rows[i]);
      if m.Success? {
        MaterializeFromContents(reg, table, rows, i + 1, acc + {m.value});
        assert |acc + {m.value}| <= |acc| + 1;
      }
    }
  }

  /** Reading the columns `fields[j..]` fails with the failure of the first
      column whose read throws; every earlier column was read. */
  lemma {:induction false} ReadColumnsFromFirstFailure(reg: Registry, row: Row, fields: seq<Field>, j: nat, e: Entity)
    requires j <= |fields|
    requires ReadColumnsFrom(reg, row, fields, j, e).Failure?
    ensures exists k ::
              && j <= k < |fields|
              && ReadField(reg, row, fields[k], None) == Failure(ReadColumnsFrom(reg, row, fields, j, e).error)
              && forall i :: j <= i < k ==> ReadField(reg, row, fields[i], None).Success?
    decreases |fields| - j
  {
    var v := ReadField(reg, row, fields[j], None);
    if v.Success? {
      ReadColumnsFromFirstFailure(reg, row, fields, j + 1, e[fields[j] := v.value]);
      var k :| && j + 1 <= k < |fields|
               && ReadField(reg, row, fields[k], None) == Failure(ReadColumnsFrom(reg, row, fields, j, e).error)
               && forall i :: j + 1 <= i < k ==> ReadField(reg, row, fields[i], None).Success?;
      assert forall i :: j <= i < k ==> ReadField(reg, row, fields[i], None).Success?;
    } else {
      assert ReadField(reg, row, fields[j], None) == Failure(ReadColumnsFrom(reg, row, fields, j, e).error);
    }
  }

  /** A row that cannot be made into an entity reports the key's read failure
      when the key cannot be read, else that of the first column in
      descriptor order whose read throws. */
  lemma MaterializeFirstFailure(reg: Registry, table: Table, row: Row)
    requires Materialize(reg, table, row).Failure?
    ensures ReadField(reg, row, table.pk, None).Failure? ==>
      Materialize(reg, table, row).error == ReadField(reg, row, table.pk, None).error
    ensures ReadField(reg, row, table.pk, None).Success? ==>
      exists k ::
        && 0 <= k < |table.columns|
        && ReadField(reg, row, table.columns[k], None) == Failure(Materialize(reg, table, row).error)
        && forall i :: 0 <= i < k ==> ReadField(reg, row, table.columns[i], None).Success?
  {
    var key := ReadField(reg, row, table.pk, None);
    if key.Success? {
      ReadColumnsFromFirstFailure(reg, row, table.columns, 0, NewInstance(table)[table.pk := key.value]);
    }
  }

  /** Materialising `rows[i..]` fails with the failure of the first row that
      cannot be made into an entity; every earlier row could. */
  lemma {:induction false} MaterializeFromFirstFailure(reg: Registry, table: Table, rows: seq<Row>, i: nat, acc: set<Entity>)
    requires i <= |rows|
    requires MaterializeFrom(reg, table, rows, i, acc).Failure?
    ensures exists k ::
              && i <= k < |rows|
              && Materialize(reg, table, rows[k]) == Failure(MaterializeFrom(reg, table, rows, i, acc).error)
              && forall j :: i <= j < k ==> Materialize(reg, table, rows[j]).Success?
    decreases |rows| - i
  {
    var m := Materialize(reg, table, rows[i]);
    if m.Success? {
      MaterializeFromFirstFailure(reg, table, rows, i + 1, acc + {m.value});
      var k :| && i + 1 <= k < |rows|
               && Materialize(reg, table, rows[k]) == Failure(MaterializeFrom(reg, table, rows, i, acc).error)
               && forall j :: i + 1 <= j < k ==> Materialize(reg, table, rows[j]).Success?;
      assert forall j :: i <= j < k ==> Materialize(reg, table, rows[j]).Success?;
    } else {
      assert Materialize(reg, table, rows[i]) == Failure(MaterializeFrom(reg, table, rows, i, acc).error);
    }
  }

  /** Select by key and bulk select agree on the same cursor: with no row,
      select finds nothing and bulk select an empty set; otherwise, when bulk
      select succeeds, select returns one of its entities, built from the
      first row. */
  lemma SelectIsFirstOfBulk(reg: Registry, table: Table, rows: seq<Row>)
    requires SelectManyOutcome(reg, table, Success(rows)).Success?
    ensures rows == [] ==>
      SelectOutcome(reg, table, Success(rows)) == Success(None)
      && SelectManyOutcome(reg, table, Success(rows)) == Success({})
    ensures rows != [] ==>
      && SelectOutcome(reg, table, Success(rows)) == Success(Some(Materialize(reg, table, rows[0]).value))
      && Materialize(reg, table, rows[0]).value in SelectManyOutcome(reg, table, Success(rows)).value
  {
    MaterializeFromContents(reg, table, rows, 0, {});
  }

  /** Copying `fields[j..]` into `target`: every copied field holds what its
      copier gives for the origin's value, every other field keeps its value. */
  lemma {:induction false} CopyColumnsFromContents(reg: Registry, fields: seq<Field>, j: nat, target: Entity, origin: Entity)
    requires forall f :: f in fields ==> f in origin
    requires j <= |fields|
    ensures var r := CopyColumnsFrom(reg, fields, j, target, origin);
      && (forall f :: f in r <==> f in target || f in fields[j..])
      && (forall k :: j <= k < |fields| ==> r[fields[k]] == CopiedValue(reg, fields[k], origin[fields[k]]))
      && (forall f :: f in target && f !in fields[j..] ==> r[f] == target[f])
    decreases |fields| - j
  {
    if j < |fields| {
      CopyColumnsFromContents(reg, fields, j + 1, CopyField(reg, fields[j], target, origin), origin);
      assert fields[j..] == [fields[j]] + fields[j + 1..];
    }
  }

  /** Insert with a provided key returns the very entity that was inserted. */
  lemma InsertProvidedKey(reg: Registry, table: Table, e: Entity, x: Execution)
    requires HasFields(table, e) && KeyProvided(table, e)
    ensures InsertOutcome(reg, table, e, Success(x)) == Success(Some(e))
  {
  }

  /** Insert without a key: no generated-key row means a null result; a
      generated-key row gives a new entity with exactly the descriptor's
      fields, the key read from column 1 and, in every column, what the copier
      makes of the inserted entity's value. */
  lemma InsertGeneratedKey(reg: Registry, table: Table, e: Entity, x: Execution)
    requires table.Valid() && HasFields(table, e) && !KeyProvided(table, e)
    ensures x.generatedKeys == [] ==> InsertOutcome(reg, table, e, Success(x)) == Success(None)
    ensures x.generatedKeys != [] ==>
      var k := ReadField(reg, x.generatedKeys[0], table.pk, Some(1));
      var r := InsertOutcome(reg, table, e, Success(x));
      && (k.Failure? ==> r == Failure(k.error))
      && (k.Success? ==>
            && r.Success? && r.value.Some?
            && r.value.value.Keys == table.Fields()
            && r.value.value[table.pk] == k.value
            && forall c :: c in table.columns ==> r.value.value[c] == CopiedValue(reg, c, e[c]))
  {
    if x.generatedKeys != [] {
      var k := ReadField(reg, x.generatedKeys[0], table.pk, Some(1));
      if k.Success? {
        var start := NewInstance(table)[table.pk := k.value];
        CopyColumnsFromContents(reg, table.columns, 0, start, e);
        assert table.columns[0..] == table.columns;
        var g := CopyColumnsFrom(reg, table.columns, 0, start, e);
        assert forall c :: c in table.columns ==> exists i :: 0 <= i < |table.columns| && table.columns[i] == c;
        assert g[table.pk] == start[table.pk];
      }
    }
  }

  /** With copiers that copy faithfully and an entity holding exactly the
      descriptor's fields, the generated-key result is the inserted entity
      with only its key replaced by the generated one. */
  lemma InsertGeneratedKeyCopiesEntity(reg: Registry, table: Table, e: Entity, x: Execution)
    requires table.Valid() && HasFields(table, e) && !KeyProvided(table, e)
    requires CopiersFaithful(reg) && e.Keys == table.Fields()
    requires x.generatedKeys != [] && ReadField(reg, x.generatedKeys[0], table.pk, Some(1)).Success?
    ensures InsertOutcome(reg, table, e, Success(x)) ==
      Success(Some(e[table.pk := ReadField(reg, x.generatedKeys[0], table.pk, Some(1)).value]))
  {
    InsertGeneratedKey(reg, table, e, x);
    var k := ReadField(reg, x.generatedKeys[0], table.pk, Some(1)).value;
    var g := InsertOutcome(reg, table, e, Success(x)).value.value;
    forall f | f in table.Fields() ensures g[f] == e[table.pk := k][f] {
      if f != table.pk {
        assert f in table.columns;
        assert reg.copier(f.ftype).Some? ==> reg.copier(f.ftype).value(e[f]) == e[f];
      }
    }
    assert g == e[table.pk := k];
  }

  /** Deduplicating a key collection never makes it larger. */
  lemma {:induction false} KeySetDedupes(keys: seq<Value>)
    ensures |set k | k in keys| <= |keys|
  {
    if keys != [] {
      KeySetDedupes(keys[1..]);
      assert (set k | k in keys) == (set k | k in keys[1..]) + {keys[0]};
    }
  }

  /** Entities that are told apart by their key, every key one of the bound
      set, are at most as many as the bound keys. */
  lemma {:induction false} AtMostOnePerKey(results: set<Entity>, pk: Field, keys: set<Value>)
    requires forall e: Entity :: e in results ==> pk in e && e[pk].Some? && e[pk].value in keys
    requires forall e1: Entity, e2: Entity :: e1 in results && e2 in results && e1[pk] == e2[pk] ==> e1 == e2
    ensures |results| <= |keys|
    decreases results
  {
    if results != {} {
      var e: Entity :| e in results;
      var rest := results - {e};
      AtMostOnePerKey(rest, pk, keys - {e[pk].value});
    }
  }

  /** Bulk select finds at most one entity per distinct key: when the store
      answers with entities whose non-null keys are among the bound set and
      tell them apart, the result is no larger than the deduplicated key set,
      which is no larger than the key collection. */
  lemma BulkSelectBounded(reg: Registry, table: Table, keys: seq<Value>, rows: seq<Row>)
    requires SelectManyOutcome(reg, table, Success(rows)).Success?
    requires var s := SelectManyOutcome(reg, table, Success(rows)).value;
      && (forall e: Entity :: e in s ==> table.pk in e && e[table.pk].Some? && e[table.pk].value in keys)
      && (forall e1: Entity, e2: Entity :: e1 in s && e2 in s && e1[table.pk] == e2[table.pk] ==> e1 == e2)
    ensures |SelectManyOutcome(reg, table, Success(rows)).value| <= |set k | k in keys| <= |keys|
  {
    AtMostOnePerKey(SelectManyOutcome(reg, table, Success(rows)).value, table.pk, set k | k in keys);
    KeySetDedupes(keys);
  }
}
