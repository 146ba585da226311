/** The `pg_deps_graph` command (pg_deps_parser/visualize_deps.py): each
    flow queries the catalog, stops with nothing rendered when the query
    fails, and otherwise builds the graph and hands it to pygraphviz (png) or
    pyvis (html). */
module DepsParser {
  import opened Wrappers
  import opened Text
  import opened Graphs
  import opened Dependencies

  /** Indentation in front of the view query's schema filter. */
  const ViewIndent := "        "

  /** The node shape both html flows pass to pyvis: `'eclipse'`, a
      misspelling of `ellipse` kept as written. */
  const NodeShape := "eclipse"
  const CanvasHeight := 800
  const CanvasWidth := "100%"

  /** `create_image_tables`: None, with no layout or draw, when the query
      fails; otherwise the foreign-key graph laid out with `layout` and drawn
      to `filename`. */
  function CreateImageTables(db: Catalog, schema: Option<string>, filename: string, layout: string): (r: Option<Render>)
    ensures r.None? <==> db.foreignKeys(TableQuery(schema)).None?
    ensures r.Some? ==> r.value.Image? && r.value.path == filename && r.value.layout == layout
    ensures r.Some? ==> r.value.graph == TableGraph(db.foreignKeys(TableQuery(schema)).value)
  {
    match db.foreignKeys(TableQuery(schema))
    case None => None
    case Some(rows) => Some(Image(TableGraph(rows), layout, filename))
  }

  /** `create_html_tables`: None when the query fails; otherwise a pyvis page
      for `filename` showing the foreign-key graph with every node given the
      shape `NodeShape`, edges shadowed, dragging on and physics off. */
  function CreateHtmlTables(db: Catalog, schema: Option<string>, filename: string): (r: Option<Render>)
    ensures r.None? <==> db.foreignKeys(TableQuery(schema)).None?
    ensures r.Some? ==> r.value.Page? && r.value.path == filename
    ensures r.Some? ==> r.value.network.graph == TableGraph(db.foreignKeys(TableQuery(schema)).value)
    ensures r.Some? ==> Styled(r.value.network) && r.value.network.edgeFlag == "shadow"
  {
    match db.foreignKeys(TableQuery(schema))
    case None => None
    case Some(rows) =>
      Some(Page(Network(TableGraph(rows), NodeShape, "shadow", true, false, CanvasHeight, CanvasWidth, true), filename))
  }

  /** `create_image_views`: None when the query fails; otherwise the view
      graph laid out with `layout` and drawn to `filename`. */
  function CreateImageViews(db: Catalog, schema: Option<string>, filename: string, layout: string): (r: Option<Render>)
    ensures r.None? <==> db.viewSources(ViewQuery(ViewIndent, schema)).None?
    ensures r.Some? ==> r.value.Image? && r.value.path == filename && r.value.layout == layout
    ensures r.Some? ==> r.value.graph == ViewGraph(db.viewSources(ViewQuery(ViewIndent, schema)).value)
  {
    match db.viewSources(ViewQuery(ViewIndent, schema))
    case None => None
    case Some(rows) => Some(Image(ViewGraph(rows), layout, filename))
  }

  /** `create_html_views`: as for tables, but the edge keyword is the
      misspelt `lshadow`, passed through to pyvis as written. */
  function CreateHtmlViews(db: Catalog, schema: Option<string>, filename: string): (r: Option<Render>)
    ensures r.None? <==> db.viewSources(ViewQuery(ViewIndent, schema)).None?
    ensures r.Some? ==> r.value.Page? && r.value.path == filename
    ensures r.Some? ==> r.value.network.graph == ViewGraph(db.viewSources(ViewQuery(ViewIndent, schema)).value)
    ensures r.Some? ==> Styled(r.value.network) && r.value.network.edgeFlag == "lshadow"
  {
    match db.viewSources(ViewQuery(ViewIndent, schema))
    case None => None
    case Some(rows) =>
      Some(Page(Network(ViewGraph(rows), NodeShape, "lshadow", true, false, CanvasHeight, CanvasWidth, true), filename))
  }

  /** The pyvis settings both html flows share. */
  predicate Styled(n: Network) {
    n.nodeShape == NodeShape && n.dragNodes && !n.physics
    && n.height == CanvasHeight && n.width == CanvasWidth && n.directed
  }

  /** The two html flows draw alike: the same canvas, node shape, dragging
      and physics settings; only the graph and the edge keyword differ. */
  lemma HtmlFlowsShareStyle(db: Catalog, schema: Option<string>, tables: string, views: string)
    requires db.foreignKeys(TableQuery(schema)).Some?
    requires db.viewSources(ViewQuery(ViewIndent, schema)).Some?
    ensures Styled(CreateHtmlTables(db, schema, tables).value.network)
    ensures Styled(CreateHtmlViews(db, schema, views).value.network)
    ensures CreateHtmlTables(db, schema, tables).value.network.(graph := Empty, edgeFlag := "")
         == CreateHtmlViews(db, schema, views).value.network.(graph := Empty, edgeFlag := "")
  {
  }

  /** An empty row list is not a failure: it still renders, an empty graph. */
  lemma EmptyRowsStillRender(db: Catalog, schema: Option<string>, filename: string, layout: string)
    requires db.foreignKeys(TableQuery(schema)) == Some([])
    requires db.viewSources(ViewQuery(ViewIndent, schema)) == Some([])
    ensures CreateImageTables(db, schema, filename, layout) == Some(Image(Empty, layout, filename))
    ensures CreateImageViews(db, schema, filename, layout) == Some(Image(Empty, layout, filename))
    ensures CreateHtmlTables(db, schema, filename).Some? && CreateHtmlTables(db, schema, filename).value.network.graph == Empty
    ensures CreateHtmlViews(db, schema, filename).Some? && CreateHtmlViews(db, schema, filename).value.network.graph == Empty
  {
  }

  datatype Format = Png | Html

  function Extension(f: Format): string {
    match f
    case Png => "png"
    case Html => "html"
  }

  /** The parsed command line. argparse limits the format to png/html
      (default html) and the layout to the five GraphViz programs. */
  datatype Options = Options(
    dbschema: Option<string>,
    outputTables: bool, fileTables: Option<string>,
    outputViews: bool, fileViews: Option<string>,
    format: Format, layout: Option<string>)

  /** The WHERE condition each flow's query uses. */
  function QueryFor(kind: FlowKind, schema: Option<string>): string {
    match kind
    case TableFlow => TableQuery(schema)
    case ViewFlow => ViewQuery(ViewIndent, schema)
  }

  /** One flow's render agrees with the format, file name and layout. */
  predicate RendersAs(f: FlowResult, format: Format, layout: string) {
    f.output.Some? ==>
      f.output.value.path == f.path && (f.output.value.Image? <==> format == Png)
      && (f.output.value.Image? ==> f.output.value.layout == layout)
  }

  /** The graph a render carries, whichever library draws it. */
  function Drawing(r: Render): Graph {
    match r
    case Image(g, _, _) => g
    case Page(n, _) => n.graph
  }

  /** The edge keyword each html flow passes to pyvis. */
  function EdgeKeyword(kind: FlowKind): string {
    match kind
    case TableFlow => "shadow"
    case ViewFlow => "lshadow"
  }

  /** A drawn flow shows the graph of the rows its query returned, through
      `create_*_tables` or `create_*_views`, and an html page carries the
      shared pyvis settings and its flow's edge keyword. */
  predicate DrawsRows(f: FlowResult, db: Catalog) {
    f.output.Some? ==>
      && (match f.kind
          case TableFlow =>
            db.foreignKeys(f.query).Some? && Drawing(f.output.value) == TableGraph(db.foreignKeys(f.query).value)
          case ViewFlow =>
            db.viewSources(f.query).Some? && Drawing(f.output.value) == ViewGraph(db.viewSources(f.query).value))
      && (f.output.value.Page? ==> Styled(f.output.value.network) && f.output.value.network.edgeFlag == EdgeKeyword(f.kind))
  }

  function TableFlowOf(db: Catalog, schema: Option<string>, path: string, format: Format, layout: string): (f: FlowResult)
    ensures f.kind == TableFlow && f.query == QueryFor(TableFlow, schema) && f.path == path
    ensures f.output.None? <==> db.foreignKeys(f.query).None?
    ensures RendersAs(f, format, layout) && DrawsRows(f, db)
  {
    FlowResult(TableFlow, TableQuery(schema), path,
      match format
      case Html => CreateHtmlTables(db, schema, path)
      case Png => CreateImageTables(db, schema, path, layout))
  }

  function ViewFlowOf(db: Catalog, schema: Option<string>, path: string, format: Format, layout: string): (f: FlowResult)
    ensures f.kind == ViewFlow && f.query == QueryFor(ViewFlow, schema) && f.path == path
    ensures f.output.None? <==> db.viewSources(f.query).None?
    ensures RendersAs(f, format, layout) && DrawsRows(f, db)
  {
    FlowResult(ViewFlow, ViewQuery(ViewIndent, schema), path,
      match format
      case Html => CreateHtmlViews(db, schema, path)
      case Png => CreateImageViews(db, schema, path, layout))
  }

  /** Where a flow writes: the file option, else `file_tables.<ext>` or
      `file_view.<ext>`. */
  function FlowPath(kind: FlowKind, opts: Options): (p: string)
    ensures p != []
    ensures kind == TableFlow && Truthy(opts.fileTables) ==> p == opts.fileTables.value
    ensures kind == ViewFlow && Truthy(opts.fileViews) ==> p == opts.fileViews.value
    ensures kind == TableFlow && !Truthy(opts.fileTables) ==> p == "file_tables." + Extension(opts.format)
    ensures kind == ViewFlow && !Truthy(opts.fileViews) ==> p == "file_view." + Extension(opts.format)
    ensures !Truthy(if kind == TableFlow then opts.fileTables else opts.fileViews) ==>
      EndsWith(p, "." + Extension(opts.format))
  {
    match kind
    case TableFlow => OrElse(opts.fileTables, "file_tables." + Extension(opts.format))
    case ViewFlow => OrElse(opts.fileViews, "file_view." + Extension(opts.format))
  }

  /** Without file options the two flows write different files, whose
      extension names the format; one file given to both makes the view
      flow's output replace the table flow's. */
  lemma FlowPathsDiffer(opts: Options)
    ensures !Truthy(opts.fileTables) && !Truthy(opts.fileViews) ==>
      FlowPath(TableFlow, opts) != FlowPath(ViewFlow, opts)
    ensures Truthy(opts.fileTables) && opts.fileViews == opts.fileTables ==>
      FlowPath(TableFlow, opts) == FlowPath(ViewFlow, opts)
  {
    if !Truthy(opts.fileTables) && !Truthy(opts.fileViews) {
      assert FlowPath(TableFlow, opts)[5] == 't' != FlowPath(ViewFlow, opts)[5];
    }
  }

  /** The catalog has no answer for the flow's query. */
  predicate QueryFailed(f: FlowResult, db: Catalog) {
    match f.kind
    case TableFlow => db.foreignKeys(f.query).None?
    case ViewFlow => db.viewSources(f.query).None?
  }

  /** A flow ran the query for the schema option, wrote to its file, drew
      nothing exactly when its query failed, and otherwise drew the graph of
      the returned rows in the chosen format with the chosen layout (`dot` by
      default). */
  predicate Agrees(f: FlowResult, opts: Options, db: Catalog) {
    && f.query == QueryFor(f.kind, opts.dbschema)
    && f.path == FlowPath(f.kind, opts)
    && (f.output.None? <==> QueryFailed(f, db))
    && RendersAs(f, opts.format, OrElse(opts.layout, "dot"))
    && DrawsRows(f, db)
  }

  /** The flow `main` runs for `kind`, with `dbschema or None` as schema. */
  function FlowFor(kind: FlowKind, opts: Options, db: Catalog): (f: FlowResult)
    ensures f.kind == kind && Agrees(f, opts, db)
  {
    var schema := OrNone(opts.dbschema);
    SchemaOrNoneSameQueries(opts.dbschema, ViewIndent);
    var layout := OrElse(opts.layout, "dot");
    match kind
    case TableFlow =>
      assert QueryFor(TableFlow, schema) == QueryFor(TableFlow, opts.dbschema);
      TableFlowOf(db, schema, FlowPath(TableFlow, opts), opts.format, layout)
    case ViewFlow =>
      assert QueryFor(ViewFlow, schema) == QueryFor(ViewFlow, opts.dbschema);
      ViewFlowOf(db, schema, FlowPath(ViewFlow, opts), opts.format, layout)
  }

  /** The flows `main` runs once connected: the table flow then the view
      flow, each when enabled. */
  function Flows(opts: Options, db: Catalog): (fs: seq<FlowResult>)
    ensures |fs| == Enabled(opts.outputTables) + Enabled(opts.outputViews)
    ensures opts.outputTables ==> fs[0].kind == TableFlow && Agrees(fs[0], opts, db)
    ensures opts.outputViews ==> fs[|fs| - 1].kind == ViewFlow && Agrees(fs[|fs| - 1], opts, db)
  {
    var t := FlowFor(TableFlow, opts, db);
    var v := FlowFor(ViewFlow, opts, db);
    if opts.outputTables && opts.outputViews then [t, v]
    else if opts.outputTables then [t]
    else if opts.outputViews then [v]
    else []
  }

  /** `main`: exit 1 with no flow when connecting fails; otherwise run the
      enabled flows and exit 0 whatever the flows did. */
  function Main(opts: Options, db: Catalog): (r: Run)
    ensures r.exitCode == (if db.reachable then 0 else 1)
    ensures !db.reachable ==> r.flows == []
    ensures db.reachable ==> r.flows == Flows(opts, db)
  {
    if !db.reachable then Run(1, []) else Run(0, Flows(opts, db))
  }

  /** The view flow is not gated by the table flow: whatever the foreign-key
      query returns, the view flow and the exit code are the same. */
  lemma ViewFlowNotGated(opts: Options, db: Catalog, other: string -> Option<seq<ForeignKeyRow>>)
    requires db.reachable && opts.outputViews
    ensures Main(opts, db).exitCode == Main(opts, db.(foreignKeys := other)).exitCode == 0
    ensures Main(opts, db).flows[|Main(opts, db).flows| - 1] ==
            Main(opts, db.(foreignKeys := other)).flows[|Main(opts, db.(foreignKeys := other)).flows| - 1]
  {
  }

  /** Nor is the table flow affected by anything the view query returns. */
  lemma TableFlowNotGated(opts: Options, db: Catalog, other: string -> Option<seq<ViewRow>>)
    requires db.reachable && opts.outputTables
    ensures Main(opts, db).flows[0] == Main(opts, db.(viewSources := other)).flows[0]
  {
  }
}
