/** What both dependency scripts share: the catalog rows, the query
    conditions that select them, the row-to-graph loops, and the renders a
    flow asks for. */
module Dependencies {
  import opened Wrappers
  import opened Seqs
  import opened Text
  import opened Sql
  import opened Graphs

  /** One foreign-key row: (constraint, table, column, foreign table, foreign column). */
  datatype ForeignKeyRow = ForeignKeyRow(
    constraintName: string, table: string, column: string,
    foreignTable: string, foreignColumn: string)

  /** One view-lineage row: (dependent schema, dependent view, source schema, source table). */
  datatype ViewRow = ViewRow(
    dependentSchema: string, dependentView: string,
    sourceSchema: string, sourceTable: string)

  /** The database as the scripts see it: whether connecting succeeds, and
      what each query returns, keyed by the query's WHERE condition (the rest
      of each SELECT is fixed text). None is a failed query. */
  datatype Catalog = Catalog(
    reachable: bool,
    foreignKeys: string -> Option<seq<ForeignKeyRow>>,
    viewSources: string -> Option<seq<ViewRow>>)

  const ForeignKeyCondition := "WHERE constraint_type = 'FOREIGN KEY'"
  const TableSchemaPrefix := "AND tc.table_schema = "
  const SystemSchemaExclusion := "WHERE source_ns.nspname NOT IN ('information_schema', 'pg_catalog')"
  const ViewSchemaPrefix := "AND source_ns.nspname = "

  /** WHERE condition of the foreign-key query: foreign keys only, restricted
      to the schema's tables exactly when a schema is given. The filter is
      glued to the closing quote without a space, as written. */
  function TableQuery(schema: Option<string>): (q: string)
    ensures |q| >= |ForeignKeyCondition|
    ensures q[..|ForeignKeyCondition|] == ForeignKeyCondition
    ensures ParseSchemaFilter(TableSchemaPrefix, q[|ForeignKeyCondition|..]) ==
      (if Truthy(schema) then Some(schema.value) else None)
    ensures Truthy(schema) <==> |q| > |ForeignKeyCondition|
  {
    var q := ForeignKeyCondition + SchemaFilter(TableSchemaPrefix, schema);
    assert q[|ForeignKeyCondition|..] == SchemaFilter(TableSchemaPrefix, schema);
    q
  }

  /** WHERE condition of the view-lineage query: the two system schemas are
      always excluded; after a line break and `indent`, the source schema is
      restricted exactly when a schema is given. */
  function ViewQuery(indent: string, schema: Option<string>): (q: string)
    ensures |q| >= |SystemSchemaExclusion| + 1 + |indent|
    ensures q[..|SystemSchemaExclusion|] == SystemSchemaExclusion
    ensures q[|SystemSchemaExclusion|..|SystemSchemaExclusion| + 1 + |indent|] == "\n" + indent
    ensures ParseSchemaFilter(ViewSchemaPrefix, q[|SystemSchemaExclusion| + 1 + |indent|..]) ==
      (if Truthy(schema) then Some(schema.value) else None)
    ensures Truthy(schema) <==> |q| > |SystemSchemaExclusion| + 1 + |indent|
  {
    var head := SystemSchemaExclusion + "\n" + indent;
    var q := head + SchemaFilter(ViewSchemaPrefix, schema);
    assert q[..|SystemSchemaExclusion|] == SystemSchemaExclusion;
    assert q[|SystemSchemaExclusion|..|head|] == "\n" + indent;
    assert q[|head|..] == SchemaFilter(ViewSchemaPrefix, schema);
    q
  }

  /** `dbschema or None` issues the very same queries as `dbschema`. */
  lemma SchemaOrNoneSameQueries(schema: Option<string>, indent: string)
    ensures TableQuery(OrNone(schema)) == TableQuery(schema)
    ensures ViewQuery(indent, OrNone(schema)) == ViewQuery(indent, schema)
  {
    if !Truthy(schema) {
      assert SchemaFilter(TableSchemaPrefix, schema) == SchemaFilter(TableSchemaPrefix, None) == "";
      assert SchemaFilter(ViewSchemaPrefix, schema) == SchemaFilter(ViewSchemaPrefix, None) == "";
    }
  }

  function ForeignKeyEdge(row: ForeignKeyRow): Edge {
    Edge(row.table, row.foreignTable, Some(row.constraintName))
  }

  function ViewEdge(row: ViewRow): Edge {
    Edge(row.dependentView, row.sourceTable, None)
  }

  /** The foreign-key loop: one edge `table -> foreign_table` labelled with
      the constraint per row, in row order; the nodes are exactly the tables
      on either end, each once, at most two per row. The column fields play
      no part. */
  function TableGraph(rows: seq<ForeignKeyRow>): (g: Graph)
    ensures |g.edges| == |rows|
    ensures forall i :: 0 <= i < |rows| ==>
      g.edges[i] == Edge(rows[i].table, rows[i].foreignTable, Some(rows[i].constraintName))
    ensures forall n :: n in g.nodes <==>
      exists i :: 0 <= i < |rows| && (rows[i].table == n || rows[i].foreignTable == n)
    ensures NoDup(g.nodes) && |g.nodes| <= 2 * |rows|
  {
    var es := seq(|rows|, i requires 0 <= i < |rows| => ForeignKeyEdge(rows[i]));
    EndpointsMembership(es);
    Build(es)
  }

  /** The view loop: one unlabelled edge `dependent_view -> source_table` per
      row, in row order; the nodes are exactly the relations on either end,
      each once. Both schema columns play no part. */
  function ViewGraph(rows: seq<ViewRow>): (g: Graph)
    ensures |g.edges| == |rows|
    ensures forall i :: 0 <= i < |rows| ==>
      g.edges[i] == Edge(rows[i].dependentView, rows[i].sourceTable, None)
    ensures forall n :: n in g.nodes <==>
      exists i :: 0 <= i < |rows| && (rows[i].dependentView == n || rows[i].sourceTable == n)
    ensures NoDup(g.nodes) && |g.nodes| <= 2 * |rows|
  {
    var es := seq(|rows|, i requires 0 <= i < |rows| => ViewEdge(rows[i]));
    EndpointsMembership(es);
    Build(es)
  }

  /** Rows that agree on constraint and both tables give the same graph,
      whatever their column names. */
  lemma TableGraphIgnoresColumns(a: seq<ForeignKeyRow>, b: seq<ForeignKeyRow>)
    requires |a| == |b|
    requires forall i :: 0 <= i < |a| ==>
      a[i].constraintName == b[i].constraintName && a[i].table == b[i].table && a[i].foreignTable == b[i].foreignTable
    ensures TableGraph(a) == TableGraph(b)
  {
    assert seq(|a|, i requires 0 <= i < |a| => ForeignKeyEdge(a[i])) ==
           seq(|b|, i requires 0 <= i < |b| => ForeignKeyEdge(b[i]));
  }

  /** Rows that agree on view and source table give the same graph, whatever
      their schemas. */
  lemma ViewGraphIgnoresSchemas(a: seq<ViewRow>, b: seq<ViewRow>)
    requires |a| == |b|
    requires forall i :: 0 <= i < |a| ==>
      a[i].dependentView == b[i].dependentView && a[i].sourceTable == b[i].sourceTable
    ensures ViewGraph(a) == ViewGraph(b)
  {
    assert seq(|a|, i requires 0 <= i < |a| => ViewEdge(a[i])) ==
           seq(|b|, i requires 0 <= i < |b| => ViewEdge(b[i]));
  }

  /** A view row repeated `k` times yields `k` edges, not one. */
  lemma RepeatedViewRow(row: ViewRow, k: nat)
    ensures ViewGraph(Repeat(row, k)).edges == Repeat(ViewEdge(row), k)
    ensures ViewGraph(Repeat(row, k)).nodes ==
      (if k == 0 then [] else if row.dependentView == row.sourceTable then [row.dependentView]
       else [row.dependentView, row.sourceTable])
  {
    var rows := Repeat(row, k);
    assert seq(|rows|, i requires 0 <= i < |rows| => ViewEdge(rows[i])) == Repeat(ViewEdge(row), k);
    RepeatedEdge(ViewEdge(row), k);
  }

  /** The single row `('fk_a', 'orders', 'customer_id', 'customers', 'id')`
      gives the nodes orders then customers and the one edge
      orders -> customers labelled fk_a. */
  lemma SingleForeignKey()
    ensures TableGraph([ForeignKeyRow("fk_a", "orders", "customer_id", "customers", "id")]) ==
      Graph(["orders", "customers"], [Edge("orders", "customers", Some("fk_a"))])
  {
    var row := ForeignKeyRow("fk_a", "orders", "customer_id", "customers", "id");
    assert seq(1, i requires 0 <= i < 1 => ForeignKeyEdge([row][i])) == Repeat(ForeignKeyEdge(row), 1);
    RepeatedEdge(ForeignKeyEdge(row), 1);
  }

  /** The interactive document pyvis builds: the graph plus its styling. */
  datatype Network = Network(
    graph: Graph, nodeShape: string, edgeFlag: string,
    dragNodes: bool, physics: bool, height: int, width: string, directed: bool)

  /** What a flow hands to a renderer: a pygraphviz layout-and-draw, or a
      pyvis page. */
  datatype Render =
    | Image(graph: Graph, layout: string, path: string)
    | Page(network: Network, path: string)

  datatype FlowKind = TableFlow | ViewFlow

  /** One enabled flow: the query it issued, the file name it chose, and its
      render, None when the flow stopped before rendering. */
  datatype FlowResult = FlowResult(kind: FlowKind, query: string, path: string, output: Option<Render>)

  /** A whole invocation: the process exit code and the flows run, in order. */
  datatype Run = Run(exitCode: int, flows: seq<FlowResult>)

  function Enabled(on: bool): nat {
    if on then 1 else 0
  }
}
