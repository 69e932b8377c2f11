/** The table descriptor of an entity type (the library's `TableData`) and the
    kinds of SQL template generated from it. The descriptor itself is derived
    by reflection, which is not part of this model: a descriptor is given. */
module Schema {
  import opened SqlValues

  /** The declared Java type of a field. A primitive type (`int`, `long`,
      `boolean`, ...) cannot hold null and is zero-initialised. */
  datatype FieldType = Primitive(name: string, zero: Value) | Reference(name: string) {
    predicate IsPrimitive() { Primitive? }
  }

  /** A field of the entity type with the column it maps to. */
  datatype Field = Field(name: string, column: string, ftype: FieldType)

  /** `TableData`: the primary-key field and the ordered non-key columns. */
  datatype Table = Table(name: string, pk: Field, columns: seq<Field>) {

    /** The primary key is not among the columns and no column repeats. */
    predicate Valid() {
      && pk !in columns
      && forall i, j :: 0 <= i < j < |columns| ==> columns[i] != columns[j]
    }

    /** Every field of the entity type that the descriptor knows. */
    function Fields(): set<Field> {
      {pk} + set c | c in columns
    }
  }

  /** The SQL text produced by `SqlGenerator`, kept abstract: only which
      operation, which descriptor and, for insert, whether the key column is
      part of the statement. */
  datatype Template =
    | SelectByKey(table: Table)
    | BulkSelectByKeys(table: Table)
    | InsertRow(table: Table, keyProvided: bool)
    | UpdateRow(table: Table)
    | DeleteByKey(table: Table)
}
