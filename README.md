# dorm and BetterSqlSupport, modelled in Dafny

This project models the core of a small Java data-access library. It has two halves that share one model of JDBC.

- **Dorm** is a joinless ORM. Given an entity and its table descriptor (a primary key plus ordered columns), it runs five operations, each on a SQL template generated for that table: select by key, bulk select by a key collection, insert, update and delete. Parameters are bound positionally in descriptor order. Entities are rebuilt from rows through a type-mapping registry, which falls back to `setObject`/`getObject` when no entry is registered.
- **BetterPreparedStatement** is a wrapper around a driver statement. Its additions are `from`, seven null-safe setters for boxed primitives, and methods that forward the connection's `create…` factories. A null argument binds a NULL with a fixed `java.sql.Types` code; any other argument binds the value itself.
- **BetterSqlSupport** runs raw SQL. `query`, `queryList`, `queryMap`, `update` and `insert` check their required arguments for null. Then they prepare the statement, hand it to an optional binding callback, execute it and map the rows with callbacks. Inside the statement's scope an `SQLException` is re-thrown unchanged. `query` wraps every other `Throwable` in `BetterSqlException`. The other four wrap every other `Exception`, so a `Throwable` that is not an `Exception` escapes them unwrapped. Cascading builders collect the SQL, the binding and the mappings, and forward to those operations.

How the model represents the system:

- The database is a `Jdbc.Connection`: a pair of total functions from a SQL statement and its bound slots to the rows returned, or to the update count and generated keys.
- Java `null` is `Option.None`, and a thrown exception is a `Failure` carrying a `Throwable`.
- The driver statement is the class `Jdbc.PreparedStatement`. Its slot map is updated in place by the setters.
- Each Dorm operation returns, as a ghost out-parameter, the statement it prepared. Its contract can then state exactly which slots were bound and what the store was asked.
- The type-mapping registry is abstract: a `TypeMappers.Registry` of lookups that may or may not have an entry for a type. Every property holds for every registry, except `Dorm.InsertGeneratedKeyCopiesEntity`: it assumes copiers that return the value they are given (`CopiersFaithful`).

Modules and files:

- `wrappers.dfy`: Option and Result.
- `sql_values.dfy`: SQL values, bound parameters, exceptions and rows.
- `schema.dfy`: field and table descriptors, and the five statement templates.
- `jdbc.dfy`: the connection and the driver statement.
- `type_mappers.dfy`: the registry.
- `better_prepared_statement.dfy`: module `DormStatement`.
- `dorm.dfy`: module `Dorm`.
- `better_sql_support.dfy`: module `Bss`.

## Model

| member | source | states |
|---|---|---|
| DormStatement.BetterPreparedStatement.From | src/main/java/cyeagy/dorm/BetterPreparedStatement.java:37-40 | a null statement is rejected with a NullPointerException, exactly when it is null; otherwise the wrapper delegates to the given statement |
| DormStatement.BetterPreparedStatement.SetBooleanNullable | src/main/java/cyeagy/dorm/BetterPreparedStatement.java:66-72 | only slot `parameterIndex` changes; it holds NULL of type BOOLEAN (16) for null, else the boolean |
| DormStatement.BetterPreparedStatement.SetByteNullable | src/main/java/cyeagy/dorm/BetterPreparedStatement.java:74-80 | only that slot changes; NULL of type TINYINT (-6) for null, else the byte |
| DormStatement.BetterPreparedStatement.SetShortNullable | src/main/java/cyeagy/dorm/BetterPreparedStatement.java:82-88 | only that slot changes; NULL of type SMALLINT (5) for null, else the short |
| DormStatement.BetterPreparedStatement.SetIntNullable | src/main/java/cyeagy/dorm/BetterPreparedStatement.java:90-96 | only that slot changes; NULL of type INTEGER (4) for null, else the int |
| DormStatement.BetterPreparedStatement.SetLongNullable | src/main/java/cyeagy/dorm/BetterPreparedStatement.java:98-104 | only that slot changes; NULL of type BIGINT (-5) for null, else the long |
| DormStatement.BetterPreparedStatement.SetFloatNullable | src/main/java/cyeagy/dorm/BetterPreparedStatement.java:106-112 | only that slot changes; NULL of type REAL (7) for null, else the float |
| DormStatement.BetterPreparedStatement.SetDoubleNullable | src/main/java/cyeagy/dorm/BetterPreparedStatement.java:114-120 | only that slot changes; NULL of type DOUBLE (8) for null, else the double |
| DormStatement.BetterPreparedStatement.Create | src/main/java/cyeagy/dorm/Dorm.java:105 | the statement the ORM creates (here with key retrieval; at lines 38, 69, 142 and 163 without) is fresh, bound to the given connection and SQL, and has no slot bound and no keys |
| DormStatement.BetterPreparedStatement.SetObject | src/main/java/cyeagy/dorm/BetterPreparedStatement.java:230-233 | forwards to the driver: only that slot changes, to an untyped NULL for null, else the object |
| DormStatement.BetterPreparedStatement.SetArray | src/main/java/cyeagy/dorm/Dorm.java:70 | forwards to the driver: only that slot changes, to the array of the given keys |
| DormStatement.BetterPreparedStatement.ExecuteQuery | src/main/java/cyeagy/dorm/BetterPreparedStatement.java:124-127 | the cursor is the store's answer to the statement's SQL with its current slots |
| DormStatement.BetterPreparedStatement.Execute | src/main/java/cyeagy/dorm/BetterPreparedStatement.java:235-238 | a failing execution is returned as is and leaves the keys alone; a successful one returns the update count and keeps the generated keys exactly when the statement was created to return them |
| DormStatement.BetterPreparedStatement.GetGeneratedKeys | src/main/java/cyeagy/dorm/BetterPreparedStatement.java:560-563 | returns the keys kept by the last execution and records that they were asked for |
| DormStatement.BetterPreparedStatement.SetNull | src/main/java/cyeagy/dorm/BetterPreparedStatement.java:134-137 | forwards to the driver: only that slot changes, to a NULL of the given type code |
| Dorm.Select | src/main/java/cyeagy/dorm/Dorm.java:34-51 | prepares the select-by-key template without key retrieval; a null key fails with NullPointerException before anything is bound; otherwise exactly slot 1 holds the key, and the result is "not found" for no row, else the entity built from the first row, with store and read failures propagated |
| Dorm.SelectMany | src/main/java/cyeagy/dorm/Dorm.java:64-83 | a null collection fails before any statement exists; otherwise the statement does not ask for generated keys, exactly slot 1 holds the set of the given keys, and the result is one entity per row, or the first failure |
| Dorm.Insert | src/main/java/cyeagy/dorm/Dorm.java:100-130 | prepares the insert template for "key provided or not" with key retrieval; binds exactly the insert slots; reads the generated keys exactly when no key was provided and the execution succeeded; the result is the insert outcome of what the store reported |
| Dorm.Update | src/main/java/cyeagy/dorm/Dorm.java:139-150 | prepares the update template without key retrieval, binds exactly the update slots, and returns success or the store's failure |
| Dorm.Delete | src/main/java/cyeagy/dorm/Dorm.java:160-167 | the statement does not ask for generated keys; a null key fails with NullPointerException and nothing is bound; otherwise exactly slot 1 holds the key, and the result is success or the store's failure |
| Dorm.BindColumns | src/main/java/cyeagy/dorm/Dorm.java:110-112 | binding the columns after `k` already bound fields puts column j at slot k + j + 1, and returns the last index used |
| Dorm.SetFieldParameter | src/main/java/cyeagy/dorm/Dorm.java:197-204 | only slot idx changes; it holds what the registered field setter gives, else `setObject` of the field's value (null becoming an untyped NULL) |
| Dorm.SetKeyParameter | src/main/java/cyeagy/dorm/Dorm.java:188-195 | only slot idx changes; it holds what the registered object setter gives for the key's class, else `setObject` of the key |
| Dorm.ReadField | src/main/java/cyeagy/dorm/Dorm.java:178-186 | a registered result writer decides the read; without one, a read by label succeeds exactly when the row has that column label, and a read by index exactly when 1 <= index <= the number of columns, giving that column's value |
| Dorm.CopiedValue | src/main/java/cyeagy/dorm/Dorm.java:169-176 | without a registered copier, and with any copier that copies faithfully, the target gets the origin's value itself |
| Dorm.CopyField | src/main/java/cyeagy/dorm/Dorm.java:169-176 | the target gains or keeps the field, which holds the copied value; every other field of the target is unchanged |
| Dorm.ReadEntity | src/main/java/cyeagy/dorm/Dorm.java:42-46 | building an entity from a row (new instance, key, then columns in order, stopping at the first failing read) yields the materialised entity |
| Dorm.ReadGeneratedEntity | src/main/java/cyeagy/dorm/Dorm.java:118-122 | the insert result is a new instance with the key read at column 1 and every column copied from the inserted entity |
| Dorm.NewInstance | src/main/java/cyeagy/dorm/Dorm.java:42 | a new instance has exactly the descriptor's fields |
| Dorm.BindingsSlots | src/main/java/cyeagy/dorm/Dorm.java:106-112 | binding fields from index `first` occupies exactly the slots first to first + n - 1, with field j at first + j |
| Dorm.BindingsSnoc | src/main/java/cyeagy/dorm/Dorm.java:111 | binding one more field writes exactly the next slot and keeps the earlier ones |
| Dorm.InsertSlots | src/main/java/cyeagy/dorm/Dorm.java:106-112 | insert's slots are 1 to n with no gap: with a provided key, the key at 1 and column j at j + 2; otherwise column j at j + 1 |
| Dorm.UpdateSlots | src/main/java/cyeagy/dorm/Dorm.java:143-147 | update's slots are 1 to n + 1: column j at j + 1, and the key last, at n + 1 |
| Dorm.KeyProvidedRule | src/main/java/cyeagy/dorm/Dorm.java:103-104 | a primitive key is never provided, whatever it holds; a boxed key is provided exactly when it is non-null |
| Dorm.ReadColumnsFromContents | src/main/java/cyeagy/dorm/Dorm.java:44-46 | reading the columns succeeds exactly when every read does; then each read column holds what was read, and every other field keeps its value |
| Dorm.MaterializeContents | src/main/java/cyeagy/dorm/Dorm.java:41-46 | a row yields an entity exactly when the key and every column can be read; the entity has exactly the descriptor's fields, each holding what was read for it |
| Dorm.MaterializeFromContents | src/main/java/cyeagy/dorm/Dorm.java:72-79 | the bulk loop succeeds exactly when every row does; then the set holds every row's entity, nothing else beyond what it started with, and at most one entity per row |
| Dorm.ReadColumnsFromFirstFailure | src/main/java/cyeagy/dorm/Dorm.java:44-46 | a failing pass over the columns fails with the failure of the first column whose read throws; every earlier column was read |
| Dorm.MaterializeFirstFailure | src/main/java/cyeagy/dorm/Dorm.java:43-46 | a row that cannot be made into an entity reports the key's read failure, or else that of the first column in descriptor order whose read throws |
| Dorm.MaterializeFromFirstFailure | src/main/java/cyeagy/dorm/Dorm.java:72-79 | a failing bulk loop fails with the failure of the first row that cannot be made into an entity |
| Dorm.SelectIsFirstOfBulk | src/main/java/cyeagy/dorm/Dorm.java:34-83 | on the same cursor, select returns nothing exactly when bulk select returns the empty set; otherwise it returns the first row's entity, which bulk select also contains |
| Dorm.CopyColumnsFromContents | src/main/java/cyeagy/dorm/Dorm.java:120-122 | copying columns sets each copied column to its copier's result on the origin's value, and leaves every other field unchanged |
| Dorm.InsertProvidedKey | src/main/java/cyeagy/dorm/Dorm.java:125-127 | with a provided key, a successful insert returns the inserted entity itself |
| Dorm.InsertGeneratedKey | src/main/java/cyeagy/dorm/Dorm.java:114-124 | without a provided key: no key row gives a null result, a failing key read is that failure, and otherwise the result has exactly the descriptor's fields, the generated key and every column copied |
| Dorm.InsertGeneratedKeyCopiesEntity | src/main/java/cyeagy/dorm/Dorm.java:114-124 | with faithful copiers, the generated-key result is the inserted entity with only its key replaced by the generated key |
| Dorm.KeySetDedupes | src/main/java/cyeagy/dorm/Dorm.java:67 | deduplicating a key collection never makes it larger |
| Dorm.AtMostOnePerKey | src/main/java/cyeagy/dorm/Dorm.java:68-78 | entities told apart by their key, each key in the bound set, are at most as many as the bound keys |
| Dorm.BulkSelectBounded | src/main/java/cyeagy/dorm/Dorm.java:64-83 | when the store answers with entities told apart by bound keys, bulk select returns no more entities than there are distinct keys, which is no more than the collection's size |
| Bss.WrapRecoversCause | src/main/java/io/github/cyeagy/bss/BetterSqlSupport.java:52-56 | the thrown exception always recovers the original failure; an SQLException is thrown as itself; query wraps every other throwable, and the other operations wrap every other exception |
| Bss.Query | src/main/java/io/github/cyeagy/bss/BetterSqlSupport.java:38-58 | fails with an unwrapped NullPointerException exactly when the connection, SQL or mapping is null. A failing binding or executeQuery, and a failing mapping of the first row, is thrown as itself when it is an SQLException and otherwise wrapped with it as cause. A success is the first row mapped with index 0, or null for no row; it is null exactly when there is no row or the mapping gave null |
| Bss.QueryList | src/main/java/io/github/cyeagy/bss/BetterSqlSupport.java:71-92 | the loop over the cursor returns exactly the list specification's result; its contents and failures are stated by QueryListResult, QueryListContents and QueryListFailure |
| Bss.QueryListResult | src/main/java/io/github/cyeagy/bss/BetterSqlSupport.java:71-92 | fails with an unwrapped NullPointerException exactly when the connection, SQL or mapping is null; a failing binding or executeQuery is thrown as itself when it is an SQLException or an Error, and otherwise wrapped with it as cause |
| Bss.QueryMap | src/main/java/io/github/cyeagy/bss/BetterSqlSupport.java:107-129 | the loop over the cursor returns exactly the map specification's result; its contents and failures are stated by QueryMapResult, QueryMapContents and QueryMapFailure |
| Bss.QueryMapResult | src/main/java/io/github/cyeagy/bss/BetterSqlSupport.java:107-129 | fails with an unwrapped NullPointerException exactly when the connection, SQL or either mapping is null; a failing binding or executeQuery is thrown as itself when it is an SQLException or an Error, and otherwise wrapped with it as cause |
| Bss.Update | src/main/java/io/github/cyeagy/bss/BetterSqlSupport.java:140-153 | fails with an unwrapped NullPointerException exactly when the connection or SQL is null; a failing binding or execution is thrown as itself when it is an SQLException or an Error, and otherwise wrapped with it as cause; a successful execution gives success with the update count, and only it does |
| Bss.Insert | src/main/java/io/github/cyeagy/bss/BetterSqlSupport.java:166-187 | the same null checks; a failing binding or execution, or a failing read of column 1 of the first key row, is thrown as itself when it is an SQLException or an Error, and otherwise wrapped; a successful execution gives success with null when no key row exists, and otherwise with column 1 of the first generated-key row when that read succeeds; no other case succeeds |
| Bss.MapFromContents | src/main/java/io/github/cyeagy/bss/BetterSqlSupport.java:80-83 | the row loop succeeds exactly when every mapping does; then it appends one element per row, in order, each being its row mapped with its index |
| Bss.MapFromFirstFailure | src/main/java/io/github/cyeagy/bss/BetterSqlSupport.java:80-83 | a failing row loop fails with the failure of the first row whose mapping throws, all earlier rows having mapped |
| Bss.PutFromSucceeds | src/main/java/io/github/cyeagy/bss/BetterSqlSupport.java:116-121 | the map loop succeeds exactly when every key mapping and every value mapping succeeds |
| Bss.PutFromKeys | src/main/java/io/github/cyeagy/bss/BetterSqlSupport.java:116-121 | the map's keys are exactly the initial ones plus every row's key, and the map grows by at most one entry per row |
| Bss.PutFromLastWins | src/main/java/io/github/cyeagy/bss/BetterSqlSupport.java:116-121 | each row's value survives in the map unless a later row has an equal key |
| Bss.PutFromUntouched | src/main/java/io/github/cyeagy/bss/BetterSqlSupport.java:116-121 | initial keys that no row produced keep their value |
| Bss.QueryListContents | src/main/java/io/github/cyeagy/bss/BetterSqlSupport.java:71-92 | a successful queryList holds one element per cursor row, element i being row i mapped with index i (null when the mapping gave null) |
| Bss.QueryListFailure | src/main/java/io/github/cyeagy/bss/BetterSqlSupport.java:80-89 | when the cursor opened but queryList failed, the failure is the translated failure of the first row whose mapping threw |
| Bss.PutFromFirstFailure | src/main/java/io/github/cyeagy/bss/BetterSqlSupport.java:116-121 | a failing map loop fails with the failure of the first row whose key mapping, or else whose value mapping, throws; every earlier row put both |
| Bss.QueryMapFailure | src/main/java/io/github/cyeagy/bss/BetterSqlSupport.java:116-127 | when the cursor opened but queryMap failed, the failure is the translated failure of the first row whose key mapping, or else whose value mapping, threw |
| Bss.QueryMapContents | src/main/java/io/github/cyeagy/bss/BetterSqlSupport.java:107-129 | a successful queryMap mapped every row; it holds at most one entry per row, its keys are exactly the rows' keys, and each key holds the value of the last row with that key |
| Bss.QueryIsHeadOfQueryList | src/main/java/io/github/cyeagy/bss/BetterSqlSupport.java:38-92 | on the same arguments, a successful queryList determines query: its first element (itself possibly null), or null for an empty list |
| Bss.Builder.ExecuteUpdate | src/main/java/io/github/cyeagy/bss/BetterSqlSupport.java:202-204 | an unbound builder updates with a null binding |
| Bss.BoundBuilder.ExecuteUpdate | src/main/java/io/github/cyeagy/bss/BetterSqlSupport.java:228-230 | a bound builder updates with its binding |
| Bss.BoundBuilder.ExecuteInsert | src/main/java/io/github/cyeagy/bss/BetterSqlSupport.java:232-234 | a bound builder inserts with its binding |
| Bss.ResultBuilder.ExecuteQuery | src/main/java/io/github/cyeagy/bss/BetterSqlSupport.java:254-256 | queries with a null binding and its mapping |
| Bss.ResultBuilder.ExecuteQueryList | src/main/java/io/github/cyeagy/bss/BetterSqlSupport.java:258-260 | lists with a null binding and its mapping |
| Bss.BoundResultBuilder.ExecuteQuery | src/main/java/io/github/cyeagy/bss/BetterSqlSupport.java:286-288 | queries with its binding and mapping |
| Bss.BoundResultBuilder.ExecuteQueryList | src/main/java/io/github/cyeagy/bss/BetterSqlSupport.java:290-292 | lists with its binding and mapping |
| Bss.KeyedResultBuilder.ExecuteQueryMapped | src/main/java/io/github/cyeagy/bss/BetterSqlSupport.java:314-316 | maps with a null binding and its two mappings |
| Bss.BoundKeyedResultBuilder.ExecuteQueryMapped | src/main/java/io/github/cyeagy/bss/BetterSqlSupport.java:336-338 | maps with its binding and its two mappings |
| Bss.CascadeOrderIrrelevant | src/main/java/io/github/cyeagy/bss/BetterSqlSupport.java:195-339 | giving the binding before or after the result mapping, and the key mapping before or after the binding, reaches the same builder |
| Bss.UnboundIsNullBinding | src/main/java/io/github/cyeagy/bss/BetterSqlSupport.java:202-204 | an unbound builder behaves like one bound with a null binding, and a null binding leaves every slot empty |

## Left out

- The SQL itself. `TableData` (introspection of the table descriptor), `SqlGenerator` (template text), `ReflectUtil` (field access) and `TypeMappers` (the registry's concrete tables) are not part of this model. Descriptors are given values, templates are named by operation and table, and the registry is an arbitrary lookup.
- `BetterPreparedStatement.create` is not among the source files; `DormStatement.BetterPreparedStatement.Create` models it as preparing a fresh statement with no slot bound. `BetterResultSet` and `BetterOptions` are not part of this model. BetterSqlSupport's statement is modelled only by its slots, so the `arraySupport` option has no effect here.
- `DormStatement.BetterPreparedStatement.SetArray` takes the key set that `Dorm.java:70` passes; the `setArray(int, Array)` in the source takes a driver array, and the overload taking a collection is not among the source files.
- `DormStatement.BetterPreparedStatement.Execute` stands for both `execute()` and `executeUpdate()` and returns the update count; the ORM ignores `execute()`'s boolean result.
- A failure while preparing a statement is not modelled. Preparation always succeeds.
- Closing statements and result sets, and failures raised while closing (try-with-resources), are not modelled.
- `createArrayOf`, `createBlob`, `createClob`, `createNClob` and `createSQLXML` of `BetterPreparedStatement` (lines 46-64) only forward to the statement's connection and carry no decision logic, and the core does not use them; they are left out.
- The delegating JDBC methods of `BetterPreparedStatement` from line 122 on are pure forwarding. Only those the core uses are modelled: `setNull`, `setObject`, `setArray`, `executeQuery`, `execute`/`executeUpdate` and `getGeneratedKeys`. The rest are left out.
- A failing parameter setter is not modelled. The registered setters, `setObject`, `setArray` and the typed setters behind the nullable ones can throw `SQLException` in Java. Here every slot write succeeds, so the nullable setters always succeed, and `Dorm.Select`, `Dorm.SelectMany`, `Dorm.Insert`, `Dorm.Update` and `Dorm.Delete` always reach execution. A store that rejects a bound value reports it as the execution's failure.
- Parameter index range checks are the driver's business. Any index may be written.
- `Dorm.Insert` and `Dorm.Update` take an entity that is not null, so a null entity's NullPointerException at `entity.getClass()` is not modelled.
- `Dorm.SelectMany` takes keys as non-null values. `new HashSet<>(keys)` accepts a null element, but the model has no null key inside a collection.
- Java value equality for `HashSet`/`HashMap` is Dafny value equality on the model's values. Entities are compared by their field values.
- Float and double payloads are opaque bit patterns, because no floating-point arithmetic happens in the core.
- `SimpleResultMapping` overloads of the builders are left out. A simple mapping is a `ResultMapping` that ignores the index.
- The unchecked `(K)` cast of the insert key cannot fail in Java, so `Bss.Insert` returns the column value untyped.
- Concurrency is left out. The registry is a fixed value, so its static caches do not exist here.
- The `select(insert(e))` round trip through a real store depends on what the store does and is not stated.
- `Dorm.Insert` writes the generated key before copying the columns. This equals "copy the columns, then write the key" only for a valid descriptor (key not among the columns), which the generated-key lemmas require.
