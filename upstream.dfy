/** The ZeeQL code the adaptor calls but does not define: the base SQL expression's statement
    builders, entity helpers and the typed select. Each is an uninterpreted function; the model
    assumes only what is stated on the fields below. */
module Upstream {
  import opened Wrappers
  import opened ZeeQL
  import opened RowStream

  /** One piece of a statement as a ZeeQL builder produces it, left to right: literal SQL text, or a
      value to bind (with the attribute it belongs to, if any). Each `Bound` piece is turned into a
      bind variable by `bindVariableDictionary` and stands for that bind's placeholder in the text. */
  datatype Part = Literal(text: string) | Bound(attribute: Option<Attribute>, value: Option<Value>)

  datatype Hooks = Hooks(
    /** The placeholder a fresh `BindVariable` carries before `bindVariableDictionary` sets one. */
    unsetPlaceholder: string,
    /** `prepareInsertExpressionWithRow`: the pieces of the INSERT for a row. */
    insertParts: (Option<Entity>, Row) -> seq<Part>,
    /** `listString` after `prepareInsertExpressionWithRow`, given its value before. */
    insertListString: (Option<Entity>, Row, string) -> string,
    /** `addSelectListAttribute` with aliases off: the select list after appending one attribute. */
    selectListAppend: (string, Attribute) -> string,
    /** `selectAttributes(entity.attributes, fetch spec matching all values of the key, limit 2)`:
        the pieces of that SELECT. */
    refetchParts: (Entity, Row) -> seq<Part>,
    /** `Entity.primaryKeyForRow`. */
    primaryKeyForRow: (Entity, Row) -> Option<Row>,
    /** `sqlStringFor(schemaObjectName:)`: the quoted table name. */
    quoteName: string -> string,
    /** The conversion of the typed `select` for an `Int` result: the integer a record delivers,
        no integer (the record is skipped), or the error the conversion throws. */
    intOf: Record -> Result<Option<int>, Error>,
    /** `AdaptorRecord.asAdaptorRow`. */
    recordAsRow: Record -> Row,
    /** The base class's `columnTypeStringForAttribute`. */
    baseColumnType: Attribute -> string,
    /** The base class's `sqlStringForCaseInsensitiveLike`. */
    baseCaseInsensitiveLike: Option<string>)
}
