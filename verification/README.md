# postgres-vis in Dafny

A model of the three command-line programs of postgres-vis, and of the PDF
output routine the reference program uses.

- **`pg_deps_graph`** (`pg_deps_parser/visualize_deps.py`) reads two kinds of
  dependency from a PostgreSQL catalog:
  - foreign keys between tables;
  - view-to-source-table lineage.

  It builds a directed graph of each and hands it to pygraphviz (png) or
  pyvis (html).
- **The older stand-alone script** (`pg_vis/visualize_deps.py`) does the same
  with png output only. A failed query gives it an empty graph, which it
  still draws.
- **`pg_deps_reference`** (`pg_deps_parser/reference.py`) writes a PDF
  reference of the schema's functions and composite types.
- **`UnicodeFPDF.output`** (`pg_deps_parser/pdf.py`) resolves a name and a
  destination, then acts on the destination:
  - `F` writes the named file;
  - `I` and `D` print the buffer;
  - `S` returns the buffer;
  - anything else raises an error.

How the model represents the outside world:

- **The database** is a value: whether connecting succeeds, plus one
  function per query, returning `None` for a failed query. Each function is
  keyed by the part of the query the program varies:
  - in the two graph programs (`Catalog`), by the WHERE condition it builds;
  - in the reference program (`RefCatalog`), by the schema clause alone,
    which is the empty string when no schema is given.
- **The graph libraries** are a `Graph` value: nodes in insertion order
  without duplicates, and edges in the order they were added, repeats kept.
- **A render** is a value that records what would be drawn, and where.
- **The PDF** is the sequence of fpdf calls made on it: fonts, writes, line
  breaks, cells, multi-cells and left-margin moves. Properties about it are
  stated through two projections:
  - `Texts` gives the texts drawn by one kind of call;
  - `MarginShift` gives the net movement of the left margin.

Modules:

| module | contents |
|---|---|
| `Wrappers` | `Option` |
| `Seqs` | the no-duplicates / first-seen-order vocabulary |
| `Text` | Python truthiness, `or`, `split`, `join`, `count`, `upper` |
| `Sql` | the optional schema filter |
| `Graphs` | graph building |
| `Dependencies` | rows, queries, row-to-graph loops, renders |
| `DepsParser`, `PgVis`, `Reference`, `Pdf` | one per source file |

Quirks of the code the model keeps as written:

- **The old script's view file.** It writes the view image to
  `filename_table or 'file_views.png'`. `--file-view-deps` is never read, and
  with `--file-table-deps` given, both images go to one file
  (`PgVis.ViewPath`, `PgVis.ViewFlowReadsTableOption`).
- **Failed queries in the old script.** A failed query is not a failed flow
  there. The empty graph is still laid out and drawn (`PgVis.TableDeps`,
  `PgVis.FailureLooksEmpty`).
- **The view edge keyword.** The html view flow passes the edge keyword
  `lshadow`, not `shadow`, as written (`DepsParser.CreateHtmlViews`).
- **The node shape.** Both html flows give every node the shape `'eclipse'`,
  a misspelling of `ellipse`, as written (`DepsParser.NodeShape`).
- **Output flags that are always on.** `--output-table-deps`,
  `--output-view-deps`, `--output-function-info` and `--output-types` are
  `store_true` flags whose defaults are set to True, so in the programs they
  are always True. `DepsParser.Flows`, `PgVis.Main` and `Reference.Document`
  take them as free booleans, so their contracts also cover the cases where
  a flag is off, which the programs never reach.
- **Type headers without a schema.** With no schema, a type header reads
  `CREATE TYPE None.<name> {` (`Reference.TypeHeaderWithoutSchema`).
- **The schema filter is not escaped.** The schema is pasted verbatim
  between single quotes into every query (`Sql.SchemaFilter`).

## Model

| member | source | states |
|---|---|---|
| Text.Split | pg_deps_parser/reference.py:75 | `args.split(',')` gives one piece more than there are commas, no piece holds a comma, and joining the pieces with commas gives back the string |
| Text.SplitJoin | pg_deps_parser/reference.py:75 | the other direction of the round trip: splitting the comma-join of comma-free pieces gives back exactly those pieces |
| Text.Upper | pg_deps_parser/pdf.py:11 | `dest.upper()` keeps the length and upper-cases each character |
| Text.UpperIdempotent | pg_deps_parser/pdf.py:11 | upper-casing an upper-cased destination changes nothing |
| Sql.SchemaFilter | pg_deps_parser/visualize_deps.py:24 | the schema clause is empty exactly when the schema is falsy; otherwise it is the prefix, then the schema verbatim between single quotes, and it parses back to that schema |
| Sql.ParsedFilterRebuilds | pg_deps_parser/visualize_deps.py:24 | converse: a clause that parses to a non-empty schema is exactly the clause built from that schema |
| Graphs.AddNode | pg_deps_parser/visualize_deps.py:60 | adding a node has set semantics: a present node changes nothing, a new one goes last, edges are untouched, no duplicates appear |
| Graphs.AddNodesFrom | pg_deps_parser/visualize_deps.py:60 | `add_nodes_from` leaves the edges alone and adds at most one node per name |
| Graphs.AddNodesFromMembers | pg_deps_parser/visualize_deps.py:60 | after `add_nodes_from(ns)` the nodes are exactly the old nodes and the names of `ns`, the old nodes stay first in place, and no duplicate appears |
| Graphs.AddEdge | pg_deps_parser/visualize_deps.py:61 | `add_edge` leaves the nodes alone and puts the edge last after the old edges; when both endpoints are already nodes, every edge still joins two nodes |
| Graphs.BuildJoined | pg_deps_parser/visualize_deps.py:57-61 | because the endpoints are added first, every edge of a built graph joins two of its nodes |
| Graphs.Build | pg_deps_parser/visualize_deps.py:57-61 | the add-endpoints-then-edge loop keeps every edge in order, and lists each endpoint once in first-seen order, at most two per edge |
| Graphs.BuildSnoc | pg_deps_parser/visualize_deps.py:58-61 | one more loop iteration adds the new edge's endpoints and then the edge |
| Graphs.RepeatedEdge | pg_deps_parser/visualize_deps.py:58-61 | adding the same edge k times keeps k edges over just its one or two endpoints |
| Dependencies.TableQuery | pg_deps_parser/visualize_deps.py:23-24 | the foreign-key condition always selects FOREIGN KEY constraints and is extended by a `tc.table_schema` filter exactly when a schema is given, recovering that schema |
| Dependencies.ViewQuery | pg_deps_parser/visualize_deps.py:44-45 | the view condition always excludes information_schema and pg_catalog; then come a line break and the indent, then a `source_ns.nspname` filter exactly when a schema is given, recovering that schema |
| Dependencies.SchemaOrNoneSameQueries | pg_deps_parser/visualize_deps.py:126 | `dbschema or None` issues the same two queries as `dbschema` |
| Dependencies.TableGraph | pg_deps_parser/visualize_deps.py:57-61 | N foreign-key rows give exactly N edges table -> foreign table labelled by constraint, in row order; the nodes are exactly the tables at either end, without duplicates, at most 2N |
| Dependencies.ViewGraph | pg_deps_parser/visualize_deps.py:83-87 | N view rows give exactly N unlabelled edges view -> source table in row order; the nodes are exactly the relations at either end, without duplicates, at most 2N |
| Dependencies.TableGraphIgnoresColumns | pg_deps_parser/visualize_deps.py:59-61 | the column fields of a foreign-key row play no part in the graph |
| Dependencies.ViewGraphIgnoresSchemas | pg_deps_parser/visualize_deps.py:85-87 | the schema fields of a view row play no part in the graph |
| Dependencies.RepeatedViewRow | pg_deps_parser/visualize_deps.py:84-87 | a view row repeated k times yields k edges, not one |
| Dependencies.SingleForeignKey | pg_deps_parser/visualize_deps.py:57-61 | the row (fk_a, orders, customer_id, customers, id) gives nodes orders, customers and the single edge orders -> customers labelled fk_a |
| DepsParser.CreateImageTables | pg_deps_parser/visualize_deps.py:53-63 | nothing is drawn exactly when the query fails; otherwise the foreign-key graph is laid out with the given layout and drawn to the file |
| DepsParser.CreateHtmlTables | pg_deps_parser/visualize_deps.py:65-77 | nothing is shown exactly when the query fails; otherwise a pyvis page of the foreign-key graph: 800 by 100%, directed, nodes of shape `'eclipse'`, shadowed edges, dragging on, physics off |
| DepsParser.CreateImageViews | pg_deps_parser/visualize_deps.py:79-89 | nothing is drawn exactly when the query fails; otherwise the view graph is laid out and drawn to the file |
| DepsParser.CreateHtmlViews | pg_deps_parser/visualize_deps.py:91-103 | as for tables on the view graph, with the edge keyword `lshadow` |
| DepsParser.HtmlFlowsShareStyle | pg_deps_parser/visualize_deps.py:69-76 | both html flows use the same 800 by 100% directed canvas, node shape `'eclipse'`, dragging on and physics off; only the graph and the edge keyword differ |
| DepsParser.EmptyRowsStillRender | pg_deps_parser/visualize_deps.py:54-63 | a query that succeeds with no rows is not a failure: every renderer still gets the empty graph |
| DepsParser.TableFlowOf | pg_deps_parser/visualize_deps.py:135-138 | the table flow runs the table query and renders nothing exactly when it fails; otherwise it renders the foreign-key graph of the returned rows to its file, as a png with the layout or as a pyvis page with the shared styling and edge keyword `shadow` |
| DepsParser.ViewFlowOf | pg_deps_parser/visualize_deps.py:141-144 | the view flow runs the view query and renders nothing exactly when it fails; otherwise it renders the view graph of the returned rows to its file, as a png with the layout or as a pyvis page with the shared styling and edge keyword `lshadow` |
| DepsParser.FlowPath | pg_deps_parser/visualize_deps.py:134-140 | a flow's file is the file option when given, otherwise exactly `file_tables.<ext>` or `file_view.<ext>` for the format's extension, so it is never empty |
| DepsParser.FlowPathsDiffer | pg_deps_parser/visualize_deps.py:134 | without file options the table and view flows write different files; one file given to both makes the view output replace the table output |
| DepsParser.FlowFor | pg_deps_parser/visualize_deps.py:132-144 | each flow uses the query for the given schema and writes to its file option or else `file_tables.<ext>` / `file_view.<ext>`; its output is absent exactly when its query failed, and otherwise is the graph of the returned rows: png draws use the chosen layout, `dot` by default, and html pages carry the pyvis styling |
| DepsParser.Flows | pg_deps_parser/visualize_deps.py:133-144 | one flow per enabled option, the table flow first and the view flow last, each agreeing with the options and drawing the graph of its query's rows |
| DepsParser.Main | pg_deps_parser/visualize_deps.py:128-145 | exit 1 with no flow when connecting fails, otherwise run the enabled flows and exit 0 |
| DepsParser.ViewFlowNotGated | pg_deps_parser/visualize_deps.py:133-145 | whatever the foreign-key query returns (even a failure), the view flow and the exit code 0 are unchanged |
| DepsParser.TableFlowNotGated | pg_deps_parser/visualize_deps.py:133-144 | the table flow does not depend on anything the view query returns |
| PgVis.TableDeps | pg_vis/visualize_deps.py:7-31 | a failed foreign-key query gives the empty graph; otherwise the foreign-key graph of the rows |
| PgVis.ViewDeps | pg_vis/visualize_deps.py:33-57 | a failed view query gives the empty graph; otherwise the view graph of the rows |
| PgVis.FailureLooksEmpty | pg_vis/visualize_deps.py:22-27 | a failed query draws the same graph as one that found no rows |
| PgVis.TableGraphAgreesWithDepsParser | pg_vis/visualize_deps.py:27-31 | on a successful query the old script draws the very graph the newer png table flow draws |
| PgVis.ViewPath | pg_vis/visualize_deps.py:92 | the view flow's file is `--file-table-deps` when given and otherwise exactly `file_views.png`; it is the table flow's own file exactly when that option is given |
| PgVis.FlowFor | pg_vis/visualize_deps.py:85-95 | each flow always draws a png of its graph with the chosen layout; the table flow writes to `filename_table or 'file_tables.png'`, the view flow to `filename_table or 'file_views.png'` |
| PgVis.Main | pg_vis/visualize_deps.py:78-98 | exit 1 with no flow when connecting fails; otherwise one drawn png per enabled flow, tables first, exit 0 |
| PgVis.ViewFlowReadsTableOption | pg_vis/visualize_deps.py:92 | the view file option is never consulted, and a given table file name receives both images |
| Pdf.Resolve | pg_deps_parser/pdf.py:11-17 | the destination is upper-cased; an empty one becomes I with name `doc.pdf` when the name is empty too, else F with the name kept; the result is never empty |
| Pdf.ResolveIdempotent | pg_deps_parser/pdf.py:11-17 | a resolved name and destination resolve to themselves |
| Pdf.Output | pg_deps_parser/pdf.py:6-38 | close first exactly when the state is below 3; print for I and D, write the named file for F, return for S, and raise `Incorrect output destination: <dest>` for anything else |
| Pdf.ReturnValue | pg_deps_parser/pdf.py:33-38 | S returns the buffer, I, D and F return the empty string, and nothing is returned when it raises |
| Pdf.DestCaseInsensitive | pg_deps_parser/pdf.py:11 | a destination and its upper-case form behave identically |
| Pdf.RaisesExactly | pg_deps_parser/pdf.py:18-37 | output raises exactly when a non-empty destination does not upper-case to I, D, F or S |
| Pdf.LowerCaseFile | pg_deps_parser/pdf.py:11-24 | destination `f` writes the named file |
| Reference.FunctionQuery | pg_deps_parser/reference.py:16 | the function query has a `WHERE n.nspname` clause exactly when a schema is given, recovering it |
| Reference.TypeQuery | pg_deps_parser/reference.py:33 | the type query has an `AND n.nspname` clause exactly when a schema is given, recovering it |
| Reference.AttributeLine | pg_deps_parser/reference.py:105-106 | an attribute line is name, space, type, `[]` exactly when the dimension count is 1, a space, and `NOT NULL` exactly for not-null attributes; its length and the position of every part are fixed |
| Reference.AttributeLineDetermined | pg_deps_parser/reference.py:105-106 | any line with the name-and-type prefix, the length, the `[]`, the space and the `NOT NULL` that `AttributeLine` promises is that attribute line: the contract fixes every character |
| Reference.OnlyOneDimensionPrintsBrackets | pg_deps_parser/reference.py:105 | any dimension count other than 1 prints like 0 |
| Reference.AddToGroup | pg_deps_parser/reference.py:103-105 | one loop step appends the line to its type's group, creating the group last when the type is new; other groups are untouched and the line count grows by one |
| Reference.GroupByType | pg_deps_parser/reference.py:100-106 | one group per type name, in first-appearance order; each group holds exactly its type's lines in row order; no row is lost or repeated |
| Reference.TypeHeader | pg_deps_parser/reference.py:114 | a type header is `CREATE TYPE `, the schema as `str` prints it, a dot, the type name and ` {` |
| Reference.TypeBlock | pg_deps_parser/reference.py:113-122 | a type block writes the header, the lines and `}`; the margin is 5 further in for the header and lines, and back before the brace |
| Reference.TypeBlocks | pg_deps_parser/reference.py:112-122 | the blocks write the listing, per type in group order, and leave the margin where it was |
| Reference.TypesSection | pg_deps_parser/reference.py:107-122 | the types section starts with the heading and writes `Types` then the listing: one header and one brace per type and one line per row; the margin is back at the end |
| Reference.CreateTypes | pg_deps_parser/reference.py:96-122 | nothing is drawn exactly when the type query fails; otherwise the types section of the rows |
| Reference.TypeHeaderWithoutSchema | pg_deps_parser/reference.py:114 | with no schema the header prints `CREATE TYPE None.` |
| Reference.ArgumentTable | pg_deps_parser/reference.py:75 | one `Input` row per comma-separated argument piece, with the pieces rejoining to the argument string |
| Reference.TableOps | pg_deps_parser/reference.py:67-71 | the table draws only cells and row breaks, and its cells read back as the rows in order |
| Reference.FunctionBlock | pg_deps_parser/reference.py:73-93 | a function block shows, in this order: its name; its description exactly when there is one; its argument cells exactly when the argument string is non-empty; then `Output: ` and the result type. Per kind of call, the writes are the name, `Output: ` and the type, and the block never moves the margin |
| Reference.FunctionBlocks | pg_deps_parser/reference.py:73-93 | the blocks show each row's block in row order, so every description and argument table sits between its own function's name and its `Output: ` line; per kind of call they write the listing, the descriptions present and the argument cells of rows that have arguments |
| Reference.FunctionsSection | pg_deps_parser/reference.py:56-93 | the functions section starts with its heading, then shows `Functions` and every row's block in order; per kind of call it writes `Functions` and the listing, with the descriptions and argument cells; the margin is unchanged |
| Reference.CreateInfo | pg_deps_parser/reference.py:51-93 | nothing is drawn exactly when the function query fails; otherwise the functions section of the rows |
| Reference.ArgumentRowsCount | pg_deps_parser/reference.py:75-87 | an argument string with n commas draws 2(n+1) cells, and an empty one draws none |
| Reference.Document | pg_deps_parser/reference.py:147-151 | the document is the functions section followed by the types section and nothing else: it starts with the one and ends with the other, each when enabled and its query succeeded, and its length is the sum of theirs; it is empty when neither is drawn; the margin is back at the end |
| Reference.Assemble | pg_deps_parser/reference.py:148-151 | drawing an optional functions section and then an optional types section gives just those two, in that order, and leaves the margin where it was |
| Reference.Main | pg_deps_parser/reference.py:140-153 | exit 1 with nothing drawn or saved when connecting fails; otherwise the document is closed and written to `filename or 'reference.pdf'`, exit 0 |

## Left out

- Database access is left out: connecting, cursors, the SELECT/JOIN text of each query and its error messages. A query is a function of the part of its text the program varies (the WHERE condition, or the schema clause in the reference program) whose result is either rows or a failure. `pg_deps_parser/pg_connect.py` is not part of this model.
- Layout and drawing are left out: pygraphviz layout and drawing, the pyvis page and html writing, and their errors for bad layouts or unwritable paths. A render is the value handed to the library.
- pygraphviz and pyvis graphs are modelled as nodes without duplicates and every added edge kept. Strict-graph or multi-edge options of the libraries are not modelled.
- Argument parsing is left out. `Options` holds the parsed values; argparse itself, `--help`, the choices check and the connection options are not modelled.
- PDF page geometry is left out: cell widths, heights, fonts by name, page breaks and the float arithmetic of `l_margin`. The margin is tracked as an integer offset.
- `print` calls and the `iso8859-13` (Latin-7) encoding of the buffer when writing are left out. The PDF buffer is not built.
- Text.Upper: upper-cases ASCII letters only, because Python's full Unicode case mapping is out of scope. Pdf.Resolve and Pdf.Output inherit this for non-ASCII destinations.
- Pdf.Output: the `open(...)` failure branch at pdf.py:25-26 is not modelled, because opening a file is I/O.
- `setup.py` entry points are not modelled.
- The shared database session is left out. In `pg_deps_graph` and `pg_deps_reference`, both flows or both sections use the one cursor opened at pg_deps_parser/pg_connect.py:17-19. The old script shares one connection (pg_vis/visualize_deps.py:79) and opens a fresh cursor for each flow (lines 88 and 93). In the model, `Catalog` and `RefCatalog` answer each query independently. `DepsParser.ViewFlowNotGated` and `DepsParser.TableFlowNotGated` are therefore about the script's control flow: a failed first query does not stop the second flow. They say nothing about what the session does after a failed statement.
