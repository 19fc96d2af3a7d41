/** The sharding rule set as far as the create-table optimizer consults it. */
module Rule {
  import opened Wrappers

  /** The enumeration of a topology: physical database name to the physical tables in it. */
  type DatabaseTables = map<string, seq<string>>

  /** How one logical table is laid out over physical databases and tables. */
  datatype Topology = Topology(layout: DatabaseTables) {
    /** Every database of the topology with its table list. */
    function Enumerate(): DatabaseTables { layout }
  }

  /** The sharding definition of one logical table. */
  datatype VTable = VTable(topology: Topology)

  /** The rule set: the virtual tables, keyed by logical table name. */
  datatype Rule = Rule(vtables: map<string, VTable>) {
    /** Looks up the virtual table of a logical table; `None` means the table is not sharded. */
    function VTable(name: string): (r: Option<VTable>)
      ensures r.Some? <==> name in vtables
      ensures r.Some? ==> r.value == vtables[name]
    {
      if name in vtables then Some(vtables[name]) else None
    }

    /** The (database, table) pairs of a topology enumeration. */
    static function Pairs(shards: DatabaseTables): set<(string, string)>
    {
      set db, t | db in shards && t in shards[db] :: (db, t)
    }
  }
}
