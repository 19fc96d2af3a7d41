/**
 * The schema-creation routing rule: a `CREATE TABLE` for a logical table without a sharding
 * rule becomes one leaf plan; for a sharded table it is expanded into one leaf per physical
 * database of the table's topology, wrapped in a composite plan.
 */
module CreateTable {
  import opened Wrappers
  import opened Ast
  import opened Proto
  import opened Rule

  /** The error the routine may return; neither of its branches ever produces one. */
  datatype Error = Error(message: string)

  /** A leaf plan that creates exactly one table `tbl` in database `db`. */
  function ToSingle(stmt: CreateTableStmt, args: seq<Value>, db: string, tbl: string): (p: Plan)
    ensures p.CreateTablePlan? && p.stmt == stmt && p.args == args
    ensures p.Targets() == {(db, tbl)}
  {
    CreateTablePlan(stmt, db, [tbl], args)
  }

  /** `p` is the leaf the expansion builds for one database of `shards`. */
  predicate IsShardLeaf(p: Plan, stmt: CreateTableStmt, shards: DatabaseTables, args: seq<Value>)
  {
    && p.CreateTablePlan?
    && p.database in shards
    && p.tables == shards[p.database]
    && p.stmt == stmt
    && p.args == args
  }

  /**
   * `plans` is a full expansion of `shards`, in some order: every sub-plan is the leaf of one
   * database of `shards`, no database has two leaves, and every database has one.
   */
  predicate IsFullExpansion(plans: seq<Plan>, stmt: CreateTableStmt, shards: DatabaseTables, args: seq<Value>)
  {
    && (forall i | 0 <= i < |plans| :: IsShardLeaf(plans[i], stmt, shards, args))
    && (forall i, j | 0 <= i < j < |plans| :: plans[i].database != plans[j].database)
    && (forall db | db in shards :: exists i | 0 <= i < |plans| :: plans[i].database == db)
  }

  /** What `OptimizeCreateTable` may return for a statement, a rule set and bound arguments. */
  predicate IsCreateTablePlan(stmt: CreateTableStmt, rule: Rule, args: seq<Value>, p: Plan)
  {
    match rule.VTable(stmt.table.Suffix())
    case None => p == ToSingle(stmt, args, "", stmt.table.Suffix())
    case Some(vt) => p.CompositePlan? && IsFullExpansion(p.plans, stmt, vt.topology.Enumerate(), args)
  }

  /**
   * Builds the plan for a `CREATE TABLE` statement. The databases of a sharded table are visited
   * in an unspecified order, as a Go map is ranged over, so the order of the sub-plans is not fixed.
   */
  method OptimizeCreateTable(stmt: CreateTableStmt, rule: Rule, args: seq<Value>) returns (p: Plan, err: Option<Error>)
    ensures err.None?
    ensures IsCreateTablePlan(stmt, rule, args, p)
  {
    var vt := rule.VTable(stmt.table.Suffix());
    var fullScan := vt.Some?;

    if !fullScan {
      return ToSingle(stmt, args, "", stmt.table.Suffix()), None;
    }

    var shards := vt.value.topology.Enumerate();
    var plans: seq<Plan> := [];
    var todo := shards.Keys;
    while todo != {}
      invariant todo <= shards.Keys
      invariant IsFullExpansion(plans, stmt, shards - todo, args)
      decreases todo
    {
      var k :| k in todo;
      var next := CreateTablePlan(stmt, k, shards[k], args);
      ExpansionExtend(plans, stmt, shards, todo, args, k);
      plans := plans + [next];
      todo := todo - {k};
    }
    assert shards - todo == shards;
    return CompositePlan(plans), None;
  }

  /** Appending the leaf of a not yet visited database keeps the partial expansion exact. */
  lemma ExpansionExtend(plans: seq<Plan>, stmt: CreateTableStmt, shards: DatabaseTables, todo: set<string>, args: seq<Value>, k: string)
    requires todo <= shards.Keys && k in todo
    requires IsFullExpansion(plans, stmt, shards - todo, args)
    ensures IsFullExpansion(plans + [CreateTablePlan(stmt, k, shards[k], args)], stmt, shards - (todo - {k}), args)
  {
    var next := CreateTablePlan(stmt, k, shards[k], args);
    var plans' := plans + [next];
    var shards' := shards - (todo - {k});
    forall db | db in shards'
      ensures exists i | 0 <= i < |plans'| :: plans'[i].database == db
    {
      if db == k {
        assert plans'[|plans|].database == db;
      } else {
        assert db in shards - todo;
        var i :| 0 <= i < |plans| && plans[i].database == db;
        assert plans'[i].database == db;
      }
    }
  }

  /** Taking the leaf of one database out of an expansion leaves an expansion of the other databases. */
  lemma ExpansionWithout(plans: seq<Plan>, stmt: CreateTableStmt, shards: DatabaseTables, args: seq<Value>, j: nat)
    requires IsFullExpansion(plans, stmt, shards, args) && j < |plans|
    ensures IsFullExpansion(plans[..j] + plans[j + 1..], stmt, shards - {plans[j].database}, args)
  {
    var d := plans[j].database;
    var rest := plans[..j] + plans[j + 1..];
    var shards' := shards - {d};
    assert forall i | 0 <= i < |rest| :: rest[i] == plans[if i < j then i else i + 1];
    forall db | db in shards'
      ensures exists i | 0 <= i < |rest| :: rest[i].database == db
    {
      var i :| 0 <= i < |plans| && plans[i].database == db;
      assert i != j;
      if i < j {
        assert rest[i].database == db;
      } else {
        assert rest[i - 1].database == db;
      }
    }
  }

  /** An expansion has exactly one sub-plan per database of the topology. */
  lemma {:induction false} ExpansionSize(plans: seq<Plan>, stmt: CreateTableStmt, shards: DatabaseTables, args: seq<Value>)
    requires IsFullExpansion(plans, stmt, shards, args)
    ensures |plans| == |shards|
  {
    if plans == [] {
      assert shards.Keys == {};
    } else {
      var n := |plans| - 1;
      var d := plans[n].database;
      ExpansionWithout(plans, stmt, shards, args, n);
      assert plans[..n] + plans[n + 1..] == plans[..n];
      ExpansionSize(plans[..n], stmt, shards - {d}, args);
      assert (shards - {d}).Keys == shards.Keys - {d};
    }
  }

  /**
   * Two expansions of the same topology, statement and arguments hold the same leaves, each as
   * often: they differ at most in the order the databases were visited.
   */
  lemma {:induction false} ExpansionsArePermutations(plans: seq<Plan>, others: seq<Plan>, stmt: CreateTableStmt, shards: DatabaseTables, args: seq<Value>)
    requires IsFullExpansion(plans, stmt, shards, args)
    requires IsFullExpansion(others, stmt, shards, args)
    ensures multiset(plans) == multiset(others)
  {
    if plans == [] {
      ExpansionSize(plans, stmt, shards, args);
      ExpansionSize(others, stmt, shards, args);
    } else {
      var n := |plans| - 1;
      var d := plans[n].database;
      var j :| 0 <= j < |others| && others[j].database == d;
      assert others[j] == plans[n];
      ExpansionWithout(plans, stmt, shards, args, n);
      ExpansionWithout(others, stmt, shards, args, j);
      assert plans[..n] + plans[n + 1..] == plans[..n];
      ExpansionsArePermutations(plans[..n], others[..j] + others[j + 1..], stmt, shards - {d}, args);
      MultisetWithout(plans, n);
      MultisetWithout(others, j);
    }
  }

  /**
   * The composite of an expansion creates the table in exactly the (database, table) pairs of the
   * topology, and each pair is served by a single sub-plan.
   */
  lemma ExpansionCoversTopology(plans: seq<Plan>, stmt: CreateTableStmt, shards: DatabaseTables, args: seq<Value>)
    requires IsFullExpansion(plans, stmt, shards, args)
    ensures CompositePlan(plans).Targets() == Rule.Pairs(shards)
    ensures forall i, j, t | 0 <= i < |plans| && 0 <= j < |plans| && (plans[i].database, t) in plans[j].Targets() && t in plans[i].tables :: i == j
  {
    var c := CompositePlan(plans);
    forall x | x in Rule.Pairs(shards) ensures x in c.Targets() {
      var i :| 0 <= i < |plans| && plans[i].database == x.0;
      assert x in plans[i].Targets();
    }
    forall x | x in c.Targets() ensures x in Rule.Pairs(shards) {
      var i :| 0 <= i < |plans| && x in plans[i].Targets();
      assert x.0 == plans[i].database && x.1 in shards[x.0];
    }
  }

  /** Taking one element out of a sequence takes one occurrence out of its multiset. */
  lemma MultisetWithout<T>(s: seq<T>, j: nat)
    requires j < |s|
    ensures multiset(s) == multiset(s[..j] + s[j + 1..]) + multiset{s[j]}
  {
    assert s == s[..j] + [s[j]] + s[j + 1..];
  }

  /**
   * A table without a sharding rule gets a single leaf, not a composite, in the default database
   * `""` with its own logical name as the only table, carrying the statement and the arguments.
   */
  lemma UnshardedPlan(stmt: CreateTableStmt, rule: Rule, args: seq<Value>, p: Plan)
    requires stmt.table.Suffix() !in rule.vtables
    requires IsCreateTablePlan(stmt, rule, args, p)
    ensures p.CreateTablePlan? && p.database == "" && p.tables == [stmt.table.Suffix()]
    ensures p.stmt == stmt && p.args == args
    ensures p.Targets() == {("", stmt.table.Suffix())}
  {
  }

  /**
   * A table with a sharding rule gets a composite with exactly one sub-plan per database of its
   * topology, no database missing or repeated; each sub-plan is a leaf for that database with its whole table list, the statement and the
   * arguments, and together they cover exactly the (database, table) pairs of the topology.
   */
  lemma ShardedPlan(stmt: CreateTableStmt, rule: Rule, args: seq<Value>, p: Plan)
    requires stmt.table.Suffix() in rule.vtables
    requires IsCreateTablePlan(stmt, rule, args, p)
    ensures var shards := rule.vtables[stmt.table.Suffix()].topology.Enumerate();
      && p.CompositePlan?
      && |p.plans| == |shards|
      && (forall q | q in p.plans :: IsShardLeaf(q, stmt, shards, args))
      && (forall db | db in shards :: exists q | q in p.plans :: q.database == db)
      && (forall i, j | 0 <= i < j < |p.plans| :: p.plans[i].database != p.plans[j].database)
      && p.Targets() == Rule.Pairs(shards)
  {
    var shards := rule.vtables[stmt.table.Suffix()].topology.Enumerate();
    ExpansionSize(p.plans, stmt, shards, args);
    ExpansionCoversTopology(p.plans, stmt, shards, args);
  }

  /**
   * Whether the statement is expanded depends on nothing but whether the rule set has a virtual
   * table for its logical name: two statements for the same name take the same branch.
   */
  lemma ExpansionDecidedByRuleOnly(stmt: CreateTableStmt, other: CreateTableStmt, rule: Rule, args: seq<Value>, otherArgs: seq<Value>, p: Plan, q: Plan)
    requires stmt.table.Suffix() == other.table.Suffix()
    requires IsCreateTablePlan(stmt, rule, args, p)
    requires IsCreateTablePlan(other, rule, otherArgs, q)
    ensures p.CompositePlan? <==> stmt.table.Suffix() in rule.vtables
    ensures p.CompositePlan? <==> q.CompositePlan?
  {
  }

  /**
   * Optimizing the same statement, rule set and arguments twice gives the same leaf, or two
   * composites holding the same sub-plans, possibly visited in another order.
   */
  lemma PlansAgreeUpToOrder(stmt: CreateTableStmt, rule: Rule, args: seq<Value>, p: Plan, q: Plan)
    requires IsCreateTablePlan(stmt, rule, args, p)
    requires IsCreateTablePlan(stmt, rule, args, q)
    ensures p.CreateTablePlan? ==> p == q
    ensures p.CompositePlan? ==> q.CompositePlan? && multiset(p.plans) == multiset(q.plans)
  {
    if p.CompositePlan? {
      var shards := rule.vtables[stmt.table.Suffix()].topology.Enumerate();
      ExpansionsArePermutations(p.plans, q.plans, stmt, shards, args);
    }
  }

  /**
   * A table `t` sharded over `db0` and `db1`, each holding `t_0` and `t_1`, gets a composite of
   * exactly two leaves, `(db0, [t_0, t_1])` and `(db1, [t_0, t_1])`, in some order.
   */
  lemma TwoDatabaseExample(stmt: CreateTableStmt, args: seq<Value>, p: Plan)
    requires stmt.table.Suffix() == "t"
    requires IsCreateTablePlan(stmt, Rule(map["t" := VTable(Topology(map["db0" := ["t_0", "t_1"], "db1" := ["t_0", "t_1"]]))]), args, p)
    ensures p.CompositePlan?
    ensures multiset(p.plans) == multiset{CreateTablePlan(stmt, "db0", ["t_0", "t_1"], args), CreateTablePlan(stmt, "db1", ["t_0", "t_1"], args)}
  {
    var shards := map["db0" := ["t_0", "t_1"], "db1" := ["t_0", "t_1"]];
    var expected := [CreateTablePlan(stmt, "db0", ["t_0", "t_1"], args), CreateTablePlan(stmt, "db1", ["t_0", "t_1"], args)];
    assert expected[0].database == "db0" && expected[1].database == "db1";
    assert IsFullExpansion(expected, stmt, shards, args);
    ExpansionsArePermutations(p.plans, expected, stmt, shards, args);
  }
}
