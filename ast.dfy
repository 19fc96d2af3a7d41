/** The parts of a parsed `CREATE TABLE` statement that the optimizer looks at. */
module Ast {

  /** A possibly qualified table name; `Suffix` is its last component, the logical table name. */
  datatype TableName = TableName(qualifier: seq<string>, suffix: string) {
    function Suffix(): string { suffix }
  }

  /**
   * A parsed `CREATE TABLE` statement. `definition` stands for everything the optimizer never
   * inspects (columns, keys, options): it is carried into every plan unchanged.
   */
  datatype CreateTableStmt = CreateTableStmt(table: TableName, definition: string)
}
