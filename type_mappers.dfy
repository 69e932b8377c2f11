/** The type-mapping registry (`TypeMappers`), kept abstract: for each kind of
    lookup the registry either has an entry (the function describes what that
    entry does) or has none, in which case the ORM falls back to untyped
    object access. */
module TypeMappers {
  import opened Wrappers
  import opened SqlValues
  import opened Schema

  datatype Registry = Registry(
    /** `getObjectParamSetter(value.getClass())`: the parameter it binds for a key value. */
    objectSetter: Value -> Option<Param>,
    /** `getFieldParamSetter(field.getType())`: the parameter it binds for a field value. */
    fieldSetter: FieldType -> Option<Option<Value> -> Param>,
    /** `getFieldResultWriter(field.getType())`: the value it reads from a row,
        by column label when no index is given, else by the 1-based index. */
    resultWriter: FieldType -> Option<(Row, Field, Option<int>) -> Result<Option<Value>, Throwable>>,
    /** `getFieldCopier(field.getType())`: the value it writes into the target
        given the origin's value. */
    copier: FieldType -> Option<Option<Value> -> Option<Value>>)

  /** Every registered copier copies a value unchanged. */
  ghost predicate CopiersFaithful(reg: Registry) {
    forall t, v :: reg.copier(t).Some? ==> reg.copier(t).value(v) == v
  }
}
