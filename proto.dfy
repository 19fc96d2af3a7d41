/** Bound arguments and the plan tree the optimizer hands to the execution layer. */
module Proto {
  import opened Ast

  /** One bound argument value; the optimizer only passes these along. */
  datatype Value = Null | Int(i: int) | Text(s: string)

  /** A physical (database, table) target. */
  type Target = (string, string)

  /**
   * A plan is either a create-table leaf bound to one database and a list of physical tables,
   * carrying the statement and its bound arguments, or a composite that runs its sub-plans as one.
   */
  datatype Plan =
    | CreateTablePlan(stmt: CreateTableStmt, database: string, tables: seq<string>, args: seq<Value>)
    | CompositePlan(plans: seq<Plan>)
  {
    /** Every (database, table) pair this plan creates a table in, through any depth of nesting. */
    function Targets(): set<Target>
    {
      match this
      case CreateTablePlan(_, db, tables, _) => set t | t in tables :: (db, t)
      case CompositePlan(plans) => set i, x | 0 <= i < |plans| && x in plans[i].Targets() :: x
    }
  }
}
