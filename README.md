# Create-table routing in the arana sharding proxy, modelled in Dafny

The arana proxy presents one logical schema over many physical databases and tables. When a
client sends `CREATE TABLE t ...`, the optimizer routine `optimizeCreateTable` decides where the
table must be created:

- if the rule set has no virtual table (sharding rule) for the logical name `t`, the result is one
  `CreateTablePlan` for the default database `""` and the single table `t`;
- otherwise the virtual table's topology is enumerated (physical database to its list of physical
  tables) and the result is a `CompositePlan` holding one `CreateTablePlan` per database, each with
  that database's whole table list.

Every plan carries the original statement and the bound arguments, and the error result is
always nil.

The model:

- `wrappers.dfy` (`Wrappers`): the `Option` datatype for the `(vt, ok)` lookup result.
- `ast.dfy` (`Ast`): the statement. It holds a table name whose `Suffix` is the logical name, and an
  opaque `definition` for everything the optimizer never reads.
- `proto.dfy` (`Proto`): bound argument values and the plan tree,
  `CreateTablePlan(stmt, database, tables, args) | CompositePlan(plans)`, with `Targets`, the set of
  (database, table) pairs a plan reaches.
- `rule.dfy` (`Rule`): the rule set as a map from logical name to virtual table. A virtual table's
  topology enumerates to a map from database to table list.
- `create_table.dfy` (`CreateTable`): the `toSingle` closure (`ToSingle`) and the routine itself
  (`OptimizeCreateTable`). The routine is a method whose loop ranges over the enumeration map the
  way Go's `for k, v := range shards` does: it picks any database not yet visited
  (`var k :| k in todo`), so no visiting order is fixed. `IsFullExpansion` says what the loop
  builds without fixing an order. The sub-plans are leaves of the topology, no database appears
  twice, and every database appears. `IsCreateTablePlan` states the whole result. The lemmas derive
  the rest from these: the leaf count, coverage of the topology's (database, table) pairs,
  agreement of two runs up to order, and that the branch depends only on the rule lookup.

Points of the code worth noting:

- A sharded leaf gets the topology's whole table list for its database
  (pkg/runtime/optimize/ddl/create_table.go:73), not exactly one table. Only the unsharded leaf has
  exactly one table.
- A sharded table is always wrapped in a `CompositePlan`, even when its topology has one database
  or none (an empty composite then).
- The sub-plans come out in Go map iteration order, which is unspecified. The model promises
  coverage without duplicates, and equality of two runs only up to permutation, not a stable order.

## Model

| member | source | states |
|---|---|---|
| `CreateTable.ToSingle` | pkg/runtime/optimize/ddl/create_table.go:50-59 | the closure builds a leaf that reaches exactly one (database, table) pair and carries the statement and the bound arguments unchanged |
| `CreateTable.OptimizeCreateTable` | pkg/runtime/optimize/ddl/create_table.go:38-85 | the error is always nil; without a rule the result is the single leaf for `("", name)`; with a rule it is a composite whose sub-plans are a full expansion of the topology enumeration, in whatever order the map is ranged over |
| `CreateTable.ExpansionExtend` | pkg/runtime/optimize/ddl/create_table.go:70-78 | appending the leaf of a database not yet visited keeps the partial plan list an exact expansion of the databases visited so far |
| `CreateTable.ExpansionSize` | pkg/runtime/optimize/ddl/create_table.go:69-82 | an expansion has exactly as many sub-plans as the enumeration has databases |
| `CreateTable.ExpansionsArePermutations` | pkg/runtime/optimize/ddl/create_table.go:70-78 | two expansions of the same topology, statement and arguments hold the same leaves with the same multiplicities, so the iteration order changes only their order |
| `CreateTable.ExpansionCoversTopology` | pkg/runtime/optimize/ddl/create_table.go:70-82 | the composite reaches exactly the topology's (database, table) pairs, none missing and none extra, and each pair is served by one sub-plan only |
| `CreateTable.UnshardedPlan` | pkg/runtime/optimize/ddl/create_table.go:50-64 | with no rule for the name the result is a leaf, not a composite, with database `""`, tables exactly `[name]`, the original statement and the input arguments |
| `CreateTable.ShardedPlan` | pkg/runtime/optimize/ddl/create_table.go:67-84 | with a rule the result is a composite with exactly one sub-plan per database, none missing and none repeated; each is that database's leaf with its full table list, the statement and the arguments; together they reach exactly the topology's pairs |
| `CreateTable.ExpansionDecidedByRuleOnly` | pkg/runtime/optimize/ddl/create_table.go:45-64 | `fullScan` is the `ok` flag of the rule lookup: the result is a composite exactly when a rule exists for the logical name, so two statements for the same name take the same branch whatever else they contain |
| `CreateTable.PlansAgreeUpToOrder` | pkg/runtime/optimize/ddl/create_table.go:38-85 | two optimizations of the same inputs give the same leaf, or composites with the same sub-plans up to order |
| `CreateTable.TwoDatabaseExample` | pkg/runtime/optimize/ddl/create_table.go:67-84 | a table sharded over `db0` and `db1`, each holding `t_0` and `t_1`, gets a composite of exactly the leaves `(db0, [t_0, t_1])` and `(db1, [t_0, t_1])`, in some order |

## Left out

- Registration of the routine under the create-table statement kind at load time (pkg/runtime/optimize/ddl/create_table.go:34-36): the registry and its dispatch, including the unsupported-kind error, live in code that is not part of this model.
- The debug log line (pkg/runtime/optimize/ddl/create_table.go:48): it only observes, and it prints `shards` before that variable is assigned.
- The `context.Context` parameter and the type assertion of the statement to a create-table statement (pkg/runtime/optimize/ddl/create_table.go:38-39): the model takes a create-table statement directly, so the panic on another statement kind is not modelled.
- The internals of `Suffix`, `VTable`, `Topology().Enumerate()` and `BindArgs`: they are not part of this model. The name is a field, the rule set and the enumeration are maps, and binding the arguments is storing them in the leaf.
- The plans are values, not the heap objects Go allocates. That no input is changed and that every plan is freshly built hold by construction in the model; aliasing between the sub-plans' shared table slices is not captured.
- Execution of the plans against the backends, and any order of the sub-plans, which Go map iteration leaves unspecified.
