/** The older stand-alone script (pg_vis/visualize_deps.py): png output
    only, and a failed query yields the empty graph, which is still laid out
    and drawn. */
module PgVis {
  import opened Wrappers
  import opened Text
  import opened Graphs
  import opened Dependencies
  import DepsParser

  /** Indentation in front of this script's view schema filter. */
  const ViewIndent := "    "

  /** `table_deps`: the foreign-key graph of the fetched rows, or the freshly
      created empty graph when the query fails. */
  function TableDeps(db: Catalog, schema: Option<string>): (g: Graph)
    ensures db.foreignKeys(TableQuery(schema)).None? ==> g == Empty
    ensures db.foreignKeys(TableQuery(schema)).Some? ==>
      g == TableGraph(db.foreignKeys(TableQuery(schema)).value)
  {
    match db.foreignKeys(TableQuery(schema))
    case None => Empty
    case Some(rows) => TableGraph(rows)
  }

  /** `view_deps`: the view graph of the fetched rows, or the empty graph
      when the query fails. */
  function ViewDeps(db: Catalog, schema: Option<string>): (g: Graph)
    ensures db.viewSources(ViewQuery(ViewIndent, schema)).None? ==> g == Empty
    ensures db.viewSources(ViewQuery(ViewIndent, schema)).Some? ==>
      g == ViewGraph(db.viewSources(ViewQuery(ViewIndent, schema)).value)
  {
    match db.viewSources(ViewQuery(ViewIndent, schema))
    case None => Empty
    case Some(rows) => ViewGraph(rows)
  }

  /** A failed query cannot be told apart from one that found no
      dependencies: both draw the empty graph. */
  lemma FailureLooksEmpty(db: Catalog, schema: Option<string>)
    requires db.foreignKeys(TableQuery(schema)).None?
    requires db.viewSources(ViewQuery(ViewIndent, schema)).None?
    ensures TableDeps(db, schema) == TableDeps(db.(foreignKeys := _ => Some([])), schema) == Empty
    ensures ViewDeps(db, schema) == ViewDeps(db.(viewSources := _ => Some([])), schema) == Empty
  {
  }

  /** When the foreign-key query succeeds, this script draws the very graph
      the newer command's png table flow draws. */
  lemma TableGraphAgreesWithDepsParser(db: Catalog, schema: Option<string>, filename: string, layout: string)
    requires db.foreignKeys(TableQuery(schema)).Some?
    ensures DepsParser.CreateImageTables(db, schema, filename, layout) ==
            Some(Image(TableDeps(db, schema), layout, filename))
  {
  }

  /** The parsed command line (no output format: always png). */
  datatype Options = Options(
    schema: Option<string>,
    outputTables: bool, fileTables: Option<string>,
    outputViews: bool, fileViews: Option<string>,
    layout: Option<string>)

  /** The file the view flow draws to: `filename_table or 'file_views.png'`.
      It reads the table option, so `fileViews` is never consulted, and it
      is the table flow's own file exactly when that option is given. */
  function ViewPath(opts: Options): (p: string)
    ensures p != []
    ensures Truthy(opts.fileTables) ==> p == opts.fileTables.value
    ensures !Truthy(opts.fileTables) ==> p == "file_views.png"
    ensures p == OrElse(opts.fileTables, "file_tables.png") <==> Truthy(opts.fileTables)
  {
    OrElse(opts.fileTables, "file_views.png")
  }

  /** A flow always draws a png of its graph (empty when the query
      failed) to its path with the chosen layout, `dot` by default; the
      table flow draws to `filename_table or 'file_tables.png'` and the view
      flow to `ViewPath`. */
  predicate Drawn(f: FlowResult, opts: Options, db: Catalog) {
    && f.output.Some? && f.output.value.Image? && f.output.value.path == f.path
    && f.output.value.layout == OrElse(opts.layout, "dot")
    && (f.kind == TableFlow ==>
          f.path == OrElse(opts.fileTables, "file_tables.png") && f.output.value.graph == TableDeps(db, opts.schema))
    && (f.kind == ViewFlow ==>
          f.path == OrElse(opts.fileTables, "file_views.png") && f.output.value.graph == ViewDeps(db, opts.schema))
  }

  /** The flow `main` runs for `kind`. */
  function FlowFor(kind: FlowKind, opts: Options, db: Catalog): (f: FlowResult)
    ensures f.kind == kind && Drawn(f, opts, db)
  {
    var layout := OrElse(opts.layout, "dot");
    match kind
    case TableFlow =>
      var path := OrElse(opts.fileTables, "file_tables.png");
      FlowResult(TableFlow, TableQuery(opts.schema), path, Some(Image(TableDeps(db, opts.schema), layout, path)))
    case ViewFlow =>
      var path := ViewPath(opts);
      FlowResult(ViewFlow, ViewQuery(ViewIndent, opts.schema), path, Some(Image(ViewDeps(db, opts.schema), layout, path)))
  }

  /** `main`: exit 1 with no flow when connecting fails; otherwise each
      enabled flow always draws a png (empty on a failed query), the table
      flow first, and exit 0. */
  function Main(opts: Options, db: Catalog): (r: Run)
    ensures r.exitCode == (if db.reachable then 0 else 1)
    ensures !db.reachable ==> r.flows == []
    ensures db.reachable ==> |r.flows| == Enabled(opts.outputTables) + Enabled(opts.outputViews)
    ensures db.reachable && opts.outputTables ==> r.flows[0].kind == TableFlow
    ensures db.reachable && opts.outputViews ==> r.flows[|r.flows| - 1].kind == ViewFlow
    ensures forall i :: 0 <= i < |r.flows| ==> Drawn(r.flows[i], opts, db)
  {
    if !db.reachable then Run(1, [])
    else
      var t := FlowFor(TableFlow, opts, db);
      var v := FlowFor(ViewFlow, opts, db);
      Run(0, if opts.outputTables && opts.outputViews then [t, v]
             else if opts.outputTables then [t]
             else if opts.outputViews then [v]
             else [])
  }

  /** The view flow ignores `--file-view-deps`, and when `--file-table-deps`
      is given both flows draw to that one file, the view image last. */
  lemma ViewFlowReadsTableOption(opts: Options, db: Catalog, other: Option<string>)
    requires db.reachable && opts.outputTables && opts.outputViews
    ensures Main(opts, db) == Main(opts.(fileViews := other), db)
    ensures Truthy(opts.fileTables) ==>
      Main(opts, db).flows[0].path == Main(opts, db).flows[1].path == opts.fileTables.value
  {
  }
}
