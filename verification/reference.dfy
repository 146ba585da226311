/** The `pg_deps_reference` command (pg_deps_parser/reference.py): function
    and composite-type documentation written into a PDF. The PDF is modelled
    as the sequence of drawing calls made on it; page geometry is not. */
module Reference {
  import opened Wrappers
  import opened Seqs
  import opened Text
  import opened Sql
  import Pdf

  /** One function row: (schema, name, arguments, result type, description). */
  datatype FunctionRow = FunctionRow(
    schema: string, name: string, args: string, output: string, description: Option<string>)

  /** One attribute row of a composite type. */
  datatype TypeRow = TypeRow(
    typename: string, attname: string, attType: string, notNull: bool, dims: int)

  /** The fpdf calls the generator makes, in order. `RowBreak` is the line
      break of one argument-table row, whose height follows the font size. */
  datatype PdfOp =
    | SetFont(size: nat, bold: bool)
    | Write(text: string)
    | LineBreak(height: nat)
    | RowBreak
    | Cell(text: string)
    | MultiCell(text: string)
    | ShiftMargin(delta: int)

  /** The database as this command sees it; queries are keyed by their
      schema condition, None is a failed query. */
  datatype RefCatalog = RefCatalog(
    reachable: bool,
    functions: string -> Option<seq<FunctionRow>>,
    types: string -> Option<seq<TypeRow>>)

  const FunctionSchemaPrefix := "WHERE n.nspname = "
  const TypeSchemaPrefix := "AND n.nspname = "

  /** The function query gains a WHERE clause exactly when a schema is
      given. */
  function FunctionQuery(schema: Option<string>): (q: string)
    ensures q == "" <==> !Truthy(schema)
    ensures ParseSchemaFilter(FunctionSchemaPrefix, q) == (if Truthy(schema) then Some(schema.value) else None)
  {
    SchemaFilter(FunctionSchemaPrefix, schema)
  }

  /** The type query gains an AND clause exactly when a schema is given. */
  function TypeQuery(schema: Option<string>): (q: string)
    ensures q == "" <==> !Truthy(schema)
    ensures ParseSchemaFilter(TypeSchemaPrefix, q) == (if Truthy(schema) then Some(schema.value) else None)
  {
    SchemaFilter(TypeSchemaPrefix, schema)
  }

  // ---------------------------------------------------------------------
  // Projections of a drawing-call sequence

  /** Which drawn texts a projection collects: those of one kind of call,
      or with `Shown` every text that reaches the page, in drawing order. */
  datatype Stream = Writes | Cells | MultiCells | Shown

  /** Whether the projection `st` collects the text of `op`. */
  predicate Collects(op: PdfOp, st: Stream) {
    match st
    case Writes => op.Write?
    case Cells => op.Cell?
    case MultiCells => op.MultiCell?
    case Shown => op.Write? || op.Cell? || op.MultiCell?
  }

  function TextOf(op: PdfOp, st: Stream): seq<string> {
    if Collects(op, st) then [op.text]
    else []
  }

  /** The texts drawn by one kind of call, in order. */
  function Texts(ops: seq<PdfOp>, st: Stream): seq<string> {
    if ops == [] then [] else TextOf(ops[0], st) + Texts(ops[1..], st)
  }

  lemma {:induction false} TextsAppend(a: seq<PdfOp>, b: seq<PdfOp>, st: Stream)
    ensures Texts(a + b, st) == Texts(a, st) + Texts(b, st)
  {
    if a == [] {
      assert a + b == b;
    } else {
      assert (a + b)[1..] == a[1..] + b;
      TextsAppend(a[1..], b, st);
    }
  }

  lemma TextsOne(op: PdfOp, st: Stream)
    ensures Texts([op], st) == TextOf(op, st)
  {
    assert [op][1..] == [];
  }

  /** Net change of the left margin over a call sequence. */
  function MarginShift(ops: seq<PdfOp>): int {
    if ops == [] then 0
    else (if ops[0].ShiftMargin? then ops[0].delta else 0) + MarginShift(ops[1..])
  }

  lemma {:induction false} MarginShiftAppend(a: seq<PdfOp>, b: seq<PdfOp>)
    ensures MarginShift(a + b) == MarginShift(a) + MarginShift(b)
  {
    if a == [] {
      assert a + b == b;
    } else {
      assert (a + b)[1..] == a[1..] + b;
      MarginShiftAppend(a[1..], b);
    }
  }

  /** No call in `ops` moves the left margin. */
  predicate Unshifted(ops: seq<PdfOp>) {
    forall i :: 0 <= i < |ops| ==> !ops[i].ShiftMargin?
  }

  /** Calls that leave the margin alone shift it by nothing. */
  lemma {:induction false} NoShiftNoMargin(ops: seq<PdfOp>)
    requires Unshifted(ops)
    ensures MarginShift(ops) == 0
  {
    if ops != [] {
      NoShiftNoMargin(ops[1..]);
    }
  }

  lemma UnshiftedAppend(a: seq<PdfOp>, b: seq<PdfOp>)
    requires Unshifted(a) && Unshifted(b)
    ensures Unshifted(a + b)
  {
  }

  // ---------------------------------------------------------------------
  // create_types

  /** `"{} {}{} {}".format(attname, att_type, "[]" if dim == 1 else "",
      "NOT NULL" if attnotnull is True else "")`: name, a space, type, the
      array brackets exactly when the dimension count is 1, a space that is
      always there, and the NOT NULL marker exactly for not-null attributes. */
  function AttributeLine(row: TypeRow): (line: string)
    ensures StartsWith(line, row.attname + " " + row.attType)
    ensures |line| == |row.attname| + |row.attType| + 2
      + (if row.dims == 1 then 2 else 0) + (if row.notNull then 8 else 0)
    ensures row.dims == 1 <==> line[|row.attname| + 1 + |row.attType|] == '['
    ensures row.dims == 1 ==> line[|row.attname| + 1 + |row.attType|..|row.attname| + 3 + |row.attType|] == "[]"
    ensures line[|line| - 1 - (if row.notNull then 8 else 0)] == ' '
    ensures row.notNull <==> EndsWith(line, "NOT NULL")
  {
    var head := row.attname + " " + row.attType + (if row.dims == 1 then "[]" else "") + " ";
    var line := head + (if row.notNull then "NOT NULL" else "");
    var at := |row.attname| + 1 + |row.attType|;
    assert line[..|row.attname + " " + row.attType|] == row.attname + " " + row.attType;
    assert line[at] == (if row.dims == 1 then '[' else ' ');
    assert row.dims == 1 ==> line[at..at + 2] == "[]";
    assert line[|head| - 1] == ' ';
    assert row.notNull ==> line[|line| - 8..] == "NOT NULL";
    line
  }

  /** The facts `AttributeLine` promises, for an arbitrary line. */
  predicate AttributeShaped(row: TypeRow, line: string) {
    && StartsWith(line, row.attname + " " + row.attType)
    && |line| == |row.attname| + |row.attType| + 2
         + (if row.dims == 1 then 2 else 0) + (if row.notNull then 8 else 0)
    && (row.dims == 1 ==> line[|row.attname| + 1 + |row.attType|..|row.attname| + 3 + |row.attType|] == "[]")
    && line[|line| - 1 - (if row.notNull then 8 else 0)] == ' '
    && (row.notNull ==> EndsWith(line, "NOT NULL"))
  }

  /** Those facts pin the line down completely: `"{} {}{} {}".format(...)`
      is the only line that has them. */
  lemma AttributeLineDetermined(row: TypeRow, line: string)
    requires AttributeShaped(row, line)
    ensures line == AttributeLine(row)
  {
  }

  /** Dimension counts other than 1 print exactly like 0. */
  lemma OnlyOneDimensionPrintsBrackets(row: TypeRow)
    requires row.dims != 1
    ensures AttributeLine(row) == AttributeLine(row.(dims := 0))
  {
  }

  /** One entry of the `types_data` dict: a type and its attribute lines. */
  datatype TypeGroup = TypeGroup(name: string, lines: seq<string>)

  function GroupNames(gs: seq<TypeGroup>): seq<string> {
    seq(|gs|, i requires 0 <= i < |gs| => gs[i].name)
  }

  function Typenames(rows: seq<TypeRow>): seq<string> {
    seq(|rows|, i requires 0 <= i < |rows| => rows[i].typename)
  }

  /** Reference definition: the attribute lines of the rows of type `name`,
      in row order. */
  function LinesOf(rows: seq<TypeRow>, name: string): seq<string> {
    if rows == [] then []
    else LinesOf(rows[..|rows| - 1], name)
         + (if rows[|rows| - 1].typename == name then [AttributeLine(rows[|rows| - 1])] else [])
  }

  function TotalLines(gs: seq<TypeGroup>): nat {
    if gs == [] then 0 else |gs[0].lines| + TotalLines(gs[1..])
  }

  /** One loop step: append `line` to the group of `name`, creating the group
      at the end when `name` is new. */
  function AddToGroup(gs: seq<TypeGroup>, name: string, line: string): (r: seq<TypeGroup>)
    ensures GroupNames(r) == (if name in GroupNames(gs) then GroupNames(gs) else GroupNames(gs) + [name])
    ensures name in GroupNames(r)
    ensures r[FirstIndex(GroupNames(r), name)].lines ==
      (if name in GroupNames(gs) then gs[FirstIndex(GroupNames(gs), name)].lines else []) + [line]
    ensures forall j :: 0 <= j < |gs| && gs[j].name != name ==> r[j] == gs[j]
    ensures TotalLines(r) == TotalLines(gs) + 1
  {
    if name in GroupNames(gs) then
      var k := FirstIndex(GroupNames(gs), name);
      var g := TypeGroup(name, gs[k].lines + [line]);
      TotalLinesUpdate(gs, k, g);
      var r := gs[k := g];
      assert GroupNames(r) == GroupNames(gs);
      r
    else
      var g := TypeGroup(name, [line]);
      TotalLinesAppend(gs, g);
      var r := gs + [g];
      assert GroupNames(r) == GroupNames(gs) + [name];
      r
  }

  lemma {:induction false} LinesOfAbsent(rows: seq<TypeRow>, name: string)
    requires name !in Typenames(rows)
    ensures LinesOf(rows, name) == []
  {
    if rows != [] {
      var prefix := rows[..|rows| - 1];
      assert Typenames(prefix) == Typenames(rows)[..|rows| - 1];
      assert Typenames(rows)[|rows| - 1] == rows[|rows| - 1].typename;
      LinesOfAbsent(prefix, name);
    }
  }

  lemma {:induction false} TotalLinesAppend(gs: seq<TypeGroup>, g: TypeGroup)
    ensures TotalLines(gs + [g]) == TotalLines(gs) + |g.lines|
  {
    if gs != [] {
      assert (gs + [g])[1..] == gs[1..] + [g];
      TotalLinesAppend(gs[1..], g);
    }
  }

  lemma {:induction false} TotalLinesUpdate(gs: seq<TypeGroup>, k: nat, g: TypeGroup)
    requires k < |gs|
    ensures TotalLines(gs[k := g]) == TotalLines(gs) - |gs[k].lines| + |g.lines|
  {
    if k > 0 {
      assert gs[k := g][1..] == gs[1..][k - 1 := g];
      TotalLinesUpdate(gs[1..], k - 1, g);
    }
  }

  /** Each group holds exactly its type's lines among `rows`. */
  predicate LinesMatch(gs: seq<TypeGroup>, rows: seq<TypeRow>) {
    forall k :: 0 <= k < |gs| ==> gs[k].lines == LinesOf(rows, gs[k].name)
  }

  /** The facts `GroupByType` keeps, for the rows scanned so far. */
  predicate GroupedAs(gs: seq<TypeGroup>, rows: seq<TypeRow>) {
    && FirstSeenOrder(GroupNames(gs), Typenames(rows))
    && LinesMatch(gs, rows)
    && TotalLines(gs) == |rows|
  }

  /** Every group's lines after one step are its type's lines among the rows
      scanned so far. */
  lemma LinesAfterAdd(gs: seq<TypeGroup>, rows: seq<TypeRow>)
    requires rows != []
    requires NoDup(GroupNames(gs))
    requires forall x :: x in GroupNames(gs) <==> x in Typenames(rows[..|rows| - 1])
    requires LinesMatch(gs, rows[..|rows| - 1])
    ensures LinesMatch(AddToGroup(gs, rows[|rows| - 1].typename, AttributeLine(rows[|rows| - 1])), rows)
  {
    var prefix := rows[..|rows| - 1];
    var row := rows[|rows| - 1];
    var gs' := AddToGroup(gs, row.typename, AttributeLine(row));
    if row.typename in GroupNames(gs) {
      var k := FirstIndex(GroupNames(gs), row.typename);
      forall j | 0 <= j < |gs'|
        ensures gs'[j].lines == LinesOf(rows, gs'[j].name)
      {
        if j != k {
          assert GroupNames(gs)[j] != GroupNames(gs)[k];
        }
      }
    } else {
      LinesOfAbsent(prefix, row.typename);
      forall j | 0 <= j < |gs'|
        ensures gs'[j].lines == LinesOf(rows, gs'[j].name)
      {
        if j < |gs| {
          assert GroupNames(gs)[j] == gs[j].name;
        }
      }
    }
  }

  /** One more row keeps the grouping facts. */
  lemma AddToGroupKeeps(gs: seq<TypeGroup>, rows: seq<TypeRow>)
    requires rows != []
    requires GroupedAs(gs, rows[..|rows| - 1])
    ensures GroupedAs(AddToGroup(gs, rows[|rows| - 1].typename, AttributeLine(rows[|rows| - 1])), rows)
  {
    var prefix := rows[..|rows| - 1];
    var row := rows[|rows| - 1];
    assert Typenames(rows) == Typenames(prefix) + [row.typename];
    FirstSeenSameElements(GroupNames(gs), Typenames(prefix));
    FirstSeenExtend(GroupNames(gs), Typenames(prefix), row.typename);
    LinesAfterAdd(gs, rows);
  }

  /** The grouping loop of `create_types`: one group per type name, in the
      order the names first appear; each group holds exactly the lines of its
      type's rows in row order; no row is lost or repeated. */
  function GroupByType(rows: seq<TypeRow>): (gs: seq<TypeGroup>)
    ensures FirstSeenOrder(GroupNames(gs), Typenames(rows))
    ensures forall k :: 0 <= k < |gs| ==> gs[k].lines == LinesOf(rows, gs[k].name)
    ensures TotalLines(gs) == |rows|
  {
    if rows == [] then []
    else
      var prefix := rows[..|rows| - 1];
      var gs := GroupByType(prefix);
      AddToGroupKeeps(gs, rows);
      AddToGroup(gs, rows[|rows| - 1].typename, AttributeLine(rows[|rows| - 1]))
  }

  /** `"CREATE TYPE {}.{} {{".format(schema, typename)`; with no schema this
      prints `None` as the schema. */
  function TypeHeader(schema: Option<string>, name: string): (h: string)
    ensures StartsWith(h, "CREATE TYPE ") && EndsWith(h, " {")
    ensures |h| == 15 + |Show(schema)| + |name|
    ensures h[12..12 + |Show(schema)|] == Show(schema) && h[12 + |Show(schema)|] == '.'
    ensures h[13 + |Show(schema)|..|h| - 2] == name
  {
    var h := "CREATE TYPE " + Show(schema) + "." + name + " {";
    assert h[..12] == "CREATE TYPE ";
    assert h[12..12 + |Show(schema)|] == Show(schema);
    assert h[13 + |Show(schema)|..|h| - 2] == name;
    assert h[|h| - 2..] == " {";
    h
  }

  /** One written line and its line break. */
  lemma LineTexts(line: string)
    ensures Texts([Write(line), LineBreak(5)], Writes) == [line]
    ensures Unshifted([Write(line), LineBreak(5)])
  {
    Texts2(Write(line), LineBreak(5), Writes);
  }

  function LineOps(lines: seq<string>): (ops: seq<PdfOp>)
    ensures Texts(ops, Writes) == lines
    ensures Unshifted(ops)
  {
    if lines == [] then []
    else
      var rest := LineOps(lines[1..]);
      LineTexts(lines[0]);
      TextsAppend([Write(lines[0]), LineBreak(5)], rest, Writes);
      UnshiftedAppend([Write(lines[0]), LineBreak(5)], rest);
      [Write(lines[0]), LineBreak(5)] + rest
  }

  const BlockOpen: seq<PdfOp> := [ShiftMargin(5)]
  const BlockClose: seq<PdfOp> := [ShiftMargin(-5), LineBreak(0), Write("}"), LineBreak(15)]

  lemma BlockCloseTexts()
    ensures Texts(BlockClose, Writes) == ["}"]
    ensures MarginShift(BlockClose[..2]) == -5
  {
    Texts4(ShiftMargin(-5), LineBreak(0), Write("}"), LineBreak(15), Writes);
    assert BlockClose[..2] == [ShiftMargin(-5), LineBreak(0)];
    assert BlockClose[..2][1..] == [LineBreak(0)];
    assert [LineBreak(0)][1..] == [];
  }

  /** The calls between the margin bump and its undoing: the header, then
      each attribute line. */
  function BlockBody(header: string, lines: seq<string>): (ops: seq<PdfOp>)
    ensures Texts(ops, Writes) == [header] + lines
    ensures Unshifted(ops)
  {
    LineTexts(header);
    TextsAppend([Write(header), LineBreak(5)], LineOps(lines), Writes);
    UnshiftedAppend([Write(header), LineBreak(5)], LineOps(lines));
    [Write(header), LineBreak(5)] + LineOps(lines)
  }

  /** The text of `open + body + close`: the body's, then the brace. */
  lemma BlockTexts(body: seq<PdfOp>)
    ensures Texts(BlockOpen + body + BlockClose, Writes) == Texts(body, Writes) + ["}"]
  {
    TextsAppend(BlockOpen + body, BlockClose, Writes);
    TextsAppend(BlockOpen, body, Writes);
    TextsOne(ShiftMargin(5), Writes);
    BlockCloseTexts();
  }

  /** Margin bookkeeping of `open + body + close`. */
  lemma BlockMargins(body: seq<PdfOp>)
    requires Unshifted(body)
    ensures forall k :: 1 <= k <= 1 + |body| ==> MarginShift((BlockOpen + body + BlockClose)[..k]) == 5
    ensures MarginShift((BlockOpen + body + BlockClose)[..|BlockOpen + body + BlockClose| - 2]) == 0
    ensures MarginShift(BlockOpen + body + BlockClose) == 0
  {
    var ops := BlockOpen + body + BlockClose;
    forall k | 1 <= k <= 1 + |body|
      ensures MarginShift(ops[..k]) == 5
    {
      assert ops[..k][1..] == body[..k - 1];
      NoShiftNoMargin(body[..k - 1]);
    }
    NoShiftNoMargin(body);
    BlockCloseTexts();
    assert ops[..|ops| - 2] == BlockOpen + body + BlockClose[..2];
    MarginShiftAppend(BlockOpen + body, BlockClose[..2]);
    MarginShiftAppend(BlockOpen, body);
    assert ops == (BlockOpen + body + BlockClose[..2]) + [Write("}"), LineBreak(15)];
    MarginShiftAppend(BlockOpen + body + BlockClose[..2], [Write("}"), LineBreak(15)]);
  }

  /** One type's block: the header, each attribute line and the closing
      brace; the margin is bumped by 5 for the header and the lines, and
      restored before the brace. */
  function TypeBlock(schema: Option<string>, g: TypeGroup): (ops: seq<PdfOp>)
    ensures Texts(ops, Writes) == [TypeHeader(schema, g.name)] + g.lines + ["}"]
    ensures |ops| >= 7
    ensures forall k :: 1 <= k <= |ops| - 4 ==> MarginShift(ops[..k]) == 5
    ensures ops[|ops| - 2] == Write("}") && MarginShift(ops[..|ops| - 2]) == 0
    ensures MarginShift(ops) == 0
  {
    var body := BlockBody(TypeHeader(schema, g.name), g.lines);
    BlockTexts(body);
    BlockMargins(body);
    BlockOpen + body + BlockClose
  }

  /** Reference definition of the text of the type listing: per group, the
      header, its lines and the closing brace. */
  function Listing(schema: Option<string>, gs: seq<TypeGroup>): seq<string> {
    if gs == [] then [] else [TypeHeader(schema, gs[0].name)] + gs[0].lines + ["}"] + Listing(schema, gs[1..])
  }

  lemma {:induction false} ListingLength(schema: Option<string>, gs: seq<TypeGroup>)
    ensures |Listing(schema, gs)| == 2 * |gs| + TotalLines(gs)
  {
    if gs != [] {
      ListingLength(schema, gs[1..]);
    }
  }

  /** All type blocks, one per group in group order; the margin is back where
      it started afterwards. */
  function TypeBlocks(schema: Option<string>, gs: seq<TypeGroup>): (ops: seq<PdfOp>)
    ensures Texts(ops, Writes) == Listing(schema, gs)
    ensures MarginShift(ops) == 0
  {
    if gs == [] then []
    else
      var first := TypeBlock(schema, gs[0]);
      var rest := TypeBlocks(schema, gs[1..]);
      TextsAppend(first, rest, Writes);
      MarginShiftAppend(first, rest);
      first + rest
  }

  const TypesHeading: seq<PdfOp> := [SetFont(14, true), LineBreak(12), Write("Types"), LineBreak(8), SetFont(12, false)]

  lemma TypesHeadingFacts()
    ensures Texts(TypesHeading, Writes) == ["Types"]
    ensures MarginShift(TypesHeading) == 0
  {
    var first := [SetFont(14, true), LineBreak(12), Write("Types"), LineBreak(8)];
    assert TypesHeading == first + [SetFont(12, false)];
    TextsAppend(first, [SetFont(12, false)], Writes);
    Texts4(SetFont(14, true), LineBreak(12), Write("Types"), LineBreak(8), Writes);
    TextsOne(SetFont(12, false), Writes);
    NoShiftNoMargin(TypesHeading);
  }

  /** The "Types" section for the fetched rows. */
  function TypesSection(schema: Option<string>, rows: seq<TypeRow>): (ops: seq<PdfOp>)
    ensures |ops| >= |TypesHeading| && ops[..|TypesHeading|] == TypesHeading
    ensures Texts(ops, Writes) == ["Types"] + Listing(schema, GroupByType(rows))
    ensures |Texts(ops, Writes)| == 1 + 2 * |GroupByType(rows)| + |rows|
    ensures MarginShift(ops) == 0
  {
    var gs := GroupByType(rows);
    var blocks := TypeBlocks(schema, gs);
    TypesHeadingFacts();
    TextsAppend(TypesHeading, blocks, Writes);
    MarginShiftAppend(TypesHeading, blocks);
    ListingLength(schema, gs);
    TypesHeading + blocks
  }

  /** `create_types`: nothing is drawn when the query fails; otherwise the
      "Types" heading then one block per type: the drawn text is the heading
      plus the listing (one header and one brace per type, one line per row),
      and the left margin ends where it began. */
  function CreateTypes(db: RefCatalog, schema: Option<string>): (r: Option<seq<PdfOp>>)
    ensures r.None? <==> db.types(TypeQuery(schema)).None?
    ensures db.types(TypeQuery(schema)).Some? ==> r == Some(TypesSection(schema, db.types(TypeQuery(schema)).value))
  {
    match db.types(TypeQuery(schema))
    case None => None
    case Some(rows) => Some(TypesSection(schema, rows))
  }

  // ---------------------------------------------------------------------
  // create_info

  lemma Texts2(a: PdfOp, b: PdfOp, st: Stream)
    ensures Texts([a, b], st) == TextOf(a, st) + TextOf(b, st)
  {
    assert [a, b] == [a] + [b];
    TextsAppend([a], [b], st);
    TextsOne(a, st);
    TextsOne(b, st);
  }

  lemma Texts4(a: PdfOp, b: PdfOp, c: PdfOp, d: PdfOp, st: Stream)
    ensures Texts([a, b, c, d], st) == TextOf(a, st) + TextOf(b, st) + TextOf(c, st) + TextOf(d, st)
  {
    assert [a, b, c, d] == [a, b] + [c, d];
    TextsAppend([a, b], [c, d], st);
    Texts2(a, b, st);
    Texts2(c, d, st);
  }

  lemma Texts6(a: PdfOp, b: PdfOp, c: PdfOp, d: PdfOp, e: PdfOp, f: PdfOp, st: Stream)
    ensures Texts([a, b, c, d, e, f], st) ==
      TextOf(a, st) + TextOf(b, st) + TextOf(c, st) + TextOf(d, st) + TextOf(e, st) + TextOf(f, st)
  {
    assert [a, b, c, d, e, f] == [a, b, c, d] + [e, f];
    TextsAppend([a, b, c, d], [e, f], st);
    Texts4(a, b, c, d, st);
    Texts2(e, f, st);
  }

  /** The rows of a table, one after another. */
  function Flatten(t: seq<seq<string>>): seq<string> {
    if t == [] then [] else t[0] + Flatten(t[1..])
  }

  /** The second column of a two-column table. */
  function Pieces(t: seq<seq<string>>): seq<string>
    requires forall i :: 0 <= i < |t| ==> |t[i]| == 2
  {
    seq(|t|, i requires 0 <= i < |t| => t[i][1])
  }

  /** `[['Input', arg] for arg in args.split(',')]`: one row per
      comma-separated piece (so one more row than there are commas), each
      labelled Input, and the pieces joined with commas give back `args`. */
  function ArgumentTable(args: string): (t: seq<seq<string>>)
    ensures |t| == Count(args, ',') + 1
    ensures forall i :: 0 <= i < |t| ==> |t[i]| == 2 && t[i][0] == "Input" && ',' !in t[i][1]
    ensures Join(Pieces(t), ',') == args
  {
    var parts := Split(args, ',');
    var t := seq(|parts|, i requires 0 <= i < |parts| => ["Input", parts[i]]);
    assert Pieces(t) == parts;
    t
  }

  /** One table row: a cell per item. */
  function CellOps(row: seq<string>): (ops: seq<PdfOp>)
    ensures Texts(ops, Cells) == row
    ensures forall i :: 0 <= i < |ops| ==> ops[i].Cell?
  {
    if row == [] then []
    else
      var ops := [Cell(row[0])] + CellOps(row[1..]);
      assert ops[1..] == CellOps(row[1..]);
      ops
  }

  /** Every call is a cell or a row break. */
  predicate CellsOnly(ops: seq<PdfOp>) {
    forall i :: 0 <= i < |ops| ==> ops[i].Cell? || ops[i].RowBreak?
  }

  lemma CellsOnlyAppend(a: seq<PdfOp>, b: seq<PdfOp>)
    requires CellsOnly(a) && CellsOnly(b)
    ensures CellsOnly(a + b)
  {
  }

  /** One drawn table row reads back as that row's items. */
  lemma RowTexts(row: seq<string>)
    ensures Texts(CellOps(row) + [RowBreak], Cells) == row
    ensures CellsOnly(CellOps(row) + [RowBreak])
  {
    TextsAppend(CellOps(row), [RowBreak], Cells);
    TextsOne(RowBreak, Cells);
  }

  /** `simple_table(data)`: each row's cells, then a row break. The cells
      read back as the table's rows in order. */
  function TableOps(t: seq<seq<string>>): (ops: seq<PdfOp>)
    ensures Texts(ops, Cells) == Flatten(t)
    ensures CellsOnly(ops)
  {
    if t == [] then []
    else
      var row := CellOps(t[0]) + [RowBreak];
      var rest := TableOps(t[1..]);
      RowTexts(t[0]);
      TextsAppend(row, rest, Cells);
      CellsOnlyAppend(row, rest);
      row + rest
  }

  /** A table draws no writes and no multi-cells. */
  lemma {:induction false} TableDrawsOnlyCells(ops: seq<PdfOp>, st: Stream)
    requires st != Cells && st != Shown
    requires CellsOnly(ops)
    ensures Texts(ops, st) == []
  {
    if ops != [] {
      TableDrawsOnlyCells(ops[1..], st);
    }
  }

  /** All a table shows is its cells. */
  lemma {:induction false} ShownIsCells(ops: seq<PdfOp>)
    requires CellsOnly(ops)
    ensures Texts(ops, Shown) == Texts(ops, Cells)
  {
    if ops != [] {
      ShownIsCells(ops[1..]);
    }
  }

  /** The four parts of one function's block. */
  function Intro(row: FunctionRow): seq<PdfOp> {
    [LineBreak(10), SetFont(12, true), Write(row.name), SetFont(12, false)]
  }

  function Description(row: FunctionRow): seq<PdfOp> {
    if row.description.Some? then [LineBreak(10), MultiCell(row.description.value)] else []
  }

  function Arguments(row: FunctionRow): seq<PdfOp> {
    if |row.args| > 0 then [LineBreak(5)] + TableOps(ArgumentTable(row.args)) else [LineBreak(5)]
  }

  function Outro(row: FunctionRow): seq<PdfOp> {
    [LineBreak(5), SetFont(12, true), Write("Output: "), SetFont(12, false), Write(row.output), LineBreak(5)]
  }

  lemma IntroTexts(row: FunctionRow, st: Stream)
    ensures Texts(Intro(row), st) == TextOf(Write(row.name), st)
  {
    Texts4(LineBreak(10), SetFont(12, true), Write(row.name), SetFont(12, false), st);
  }

  lemma DescriptionTexts(row: FunctionRow, st: Stream)
    ensures Texts(Description(row), st) ==
      (if row.description.Some? then TextOf(MultiCell(row.description.value), st) else [])
  {
    if row.description.Some? {
      Texts2(LineBreak(10), MultiCell(row.description.value), st);
    }
  }

  lemma ArgumentsTexts(row: FunctionRow, st: Stream)
    ensures Texts(Arguments(row), st) ==
      (if |row.args| > 0 && (st == Cells || st == Shown) then Flatten(ArgumentTable(row.args)) else [])
  {
    TextsOne(LineBreak(5), st);
    if |row.args| > 0 {
      TextsAppend([LineBreak(5)], TableOps(ArgumentTable(row.args)), st);
      if st == Shown {
        ShownIsCells(TableOps(ArgumentTable(row.args)));
      } else if st != Cells {
        TableDrawsOnlyCells(TableOps(ArgumentTable(row.args)), st);
      }
    }
  }

  lemma OutroTexts(row: FunctionRow, st: Stream)
    ensures Texts(Outro(row), st) == TextOf(Write("Output: "), st) + TextOf(Write(row.output), st)
  {
    Texts6(LineBreak(5), SetFont(12, true), Write("Output: "), SetFont(12, false), Write(row.output), LineBreak(5), st);
  }

  lemma PartTexts(row: FunctionRow, st: Stream)
    ensures Texts(Parts(row), st) ==
      TextOf(Write(row.name), st)
      + (if row.description.Some? then TextOf(MultiCell(row.description.value), st) else [])
      + (if |row.args| > 0 && (st == Cells || st == Shown) then Flatten(ArgumentTable(row.args)) else [])
      + TextOf(Write("Output: "), st) + TextOf(Write(row.output), st)
  {
    var intro, description, arguments, outro := Intro(row), Description(row), Arguments(row), Outro(row);
    Texts4Parts(intro, description, arguments, outro, st);
    IntroTexts(row, st);
    DescriptionTexts(row, st);
    ArgumentsTexts(row, st);
    OutroTexts(row, st);
  }

  lemma PartsUnshifted(row: FunctionRow)
    ensures Unshifted(Parts(row))
  {
    assert Unshifted(Intro(row)) && Unshifted(Description(row)) && Unshifted(Outro(row));
    assert Unshifted(Arguments(row)) by {
      if |row.args| > 0 {
        UnshiftedAppend([LineBreak(5)], TableOps(ArgumentTable(row.args)));
      }
    }
    UnshiftedAppend(Intro(row), Description(row));
    UnshiftedAppend(Intro(row) + Description(row), Arguments(row));
    UnshiftedAppend(Intro(row) + Description(row) + Arguments(row), Outro(row));
  }

  lemma Texts4Parts(a: seq<PdfOp>, b: seq<PdfOp>, c: seq<PdfOp>, d: seq<PdfOp>, st: Stream)
    ensures Texts(a + b + c + d, st) == Texts(a, st) + Texts(b, st) + Texts(c, st) + Texts(d, st)
  {
    TextsAppend(a + b + c, d, st);
    TextsAppend(a + b, c, st);
    TextsAppend(a, b, st);
  }

  function Parts(row: FunctionRow): seq<PdfOp> {
    Intro(row) + Description(row) + Arguments(row) + Outro(row)
  }

  lemma PartWrites(row: FunctionRow)
    ensures Texts(Parts(row), Writes) == [row.name, "Output: ", row.output]
  {
    PartTexts(row, Writes);
  }

  lemma PartMultiCells(row: FunctionRow)
    ensures Texts(Parts(row), MultiCells) == (if row.description.Some? then [row.description.value] else [])
  {
    PartTexts(row, MultiCells);
  }

  lemma PartCells(row: FunctionRow)
    ensures Texts(Parts(row), Cells) == (if |row.args| > 0 then Flatten(ArgumentTable(row.args)) else [])
  {
    PartTexts(row, Cells);
  }

  lemma PartShown(row: FunctionRow)
    ensures Texts(Parts(row), Shown) == BlockShown(row)
  {
    PartTexts(row, Shown);
  }

  /** Reference definition of what one function's block shows, in order:
      its name, its description when there is one, its argument cells when
      the argument string is non-empty, then "Output: " and the result type. */
  function BlockShown(row: FunctionRow): seq<string> {
    [row.name]
    + (if row.description.Some? then [row.description.value] else [])
    + (if |row.args| > 0 then Flatten(ArgumentTable(row.args)) else [])
    + ["Output: ", row.output]
  }

  /** The calls for one function row, drawn in this order: its name, its
      description only when there is one, its argument table only when the
      argument string is non-empty, and its result type. */
  function FunctionBlock(row: FunctionRow): (ops: seq<PdfOp>)
    ensures Texts(ops, Writes) == [row.name, "Output: ", row.output]
    ensures Texts(ops, MultiCells) == (if row.description.Some? then [row.description.value] else [])
    ensures Texts(ops, Cells) == (if |row.args| > 0 then Flatten(ArgumentTable(row.args)) else [])
    ensures Texts(ops, Shown) == BlockShown(row)
    ensures Unshifted(ops)
  {
    PartsUnshifted(row);
    PartWrites(row);
    PartMultiCells(row);
    PartCells(row);
    PartShown(row);
    Parts(row)
  }

  /** Reference definitions of what the function section shows, row by row:
      name, "Output: " and result type; the descriptions present; the
      argument cells of rows that have arguments. */
  function FunctionListing(rows: seq<FunctionRow>): seq<string> {
    if rows == [] then [] else [rows[0].name, "Output: ", rows[0].output] + FunctionListing(rows[1..])
  }

  function Descriptions(rows: seq<FunctionRow>): seq<string> {
    if rows == [] then []
    else (if rows[0].description.Some? then [rows[0].description.value] else []) + Descriptions(rows[1..])
  }

  function ArgumentCells(rows: seq<FunctionRow>): seq<string> {
    if rows == [] then []
    else (if |rows[0].args| > 0 then Flatten(ArgumentTable(rows[0].args)) else []) + ArgumentCells(rows[1..])
  }

  /** Everything the function rows show, block after block. */
  function ShownListing(rows: seq<FunctionRow>): seq<string> {
    if rows == [] then [] else BlockShown(rows[0]) + ShownListing(rows[1..])
  }

  function FunctionBlocks(rows: seq<FunctionRow>): (ops: seq<PdfOp>)
    ensures Texts(ops, Writes) == FunctionListing(rows)
    ensures Texts(ops, MultiCells) == Descriptions(rows)
    ensures Texts(ops, Cells) == ArgumentCells(rows)
    ensures Texts(ops, Shown) == ShownListing(rows)
    ensures Unshifted(ops)
  {
    if rows == [] then []
    else
      var first := FunctionBlock(rows[0]);
      var rest := FunctionBlocks(rows[1..]);
      UnshiftedAppend(first, rest);
      TextsAppend(first, rest, Writes);
      TextsAppend(first, rest, MultiCells);
      TextsAppend(first, rest, Cells);
      TextsAppend(first, rest, Shown);
      first + rest
  }

  const FunctionsHeading: seq<PdfOp> := [SetFont(14, true), Write("Functions"), LineBreak(5), SetFont(12, false)]

  /** The "Functions" section for the fetched rows: the heading, then per
      row its name, its description when there is one, its argument table
      when the argument string is non-empty, and its result type; the left
      margin is never moved. */
  function FunctionsSection(rows: seq<FunctionRow>): (ops: seq<PdfOp>)
    ensures |ops| >= |FunctionsHeading| && ops[..|FunctionsHeading|] == FunctionsHeading
    ensures Texts(ops, Writes) == ["Functions"] + FunctionListing(rows)
    ensures Texts(ops, MultiCells) == Descriptions(rows)
    ensures Texts(ops, Cells) == ArgumentCells(rows)
    ensures Texts(ops, Shown) == ["Functions"] + ShownListing(rows)
    ensures MarginShift(ops) == 0
  {
    var blocks := FunctionBlocks(rows);
    FunctionsHeadingFacts();
    TextsAppend(FunctionsHeading, blocks, Writes);
    TextsAppend(FunctionsHeading, blocks, MultiCells);
    TextsAppend(FunctionsHeading, blocks, Cells);
    TextsAppend(FunctionsHeading, blocks, Shown);
    UnshiftedMargin(FunctionsHeading, blocks);
    FunctionsHeading + blocks
  }

  lemma FunctionsHeadingFacts()
    ensures Texts(FunctionsHeading, Writes) == ["Functions"]
    ensures Texts(FunctionsHeading, MultiCells) == []
    ensures Texts(FunctionsHeading, Cells) == []
    ensures Texts(FunctionsHeading, Shown) == ["Functions"]
    ensures Unshifted(FunctionsHeading)
  {
    Texts4(SetFont(14, true), Write("Functions"), LineBreak(5), SetFont(12, false), Writes);
    Texts4(SetFont(14, true), Write("Functions"), LineBreak(5), SetFont(12, false), MultiCells);
    Texts4(SetFont(14, true), Write("Functions"), LineBreak(5), SetFont(12, false), Cells);
    Texts4(SetFont(14, true), Write("Functions"), LineBreak(5), SetFont(12, false), Shown);
  }

  lemma UnshiftedMargin(a: seq<PdfOp>, b: seq<PdfOp>)
    requires Unshifted(a) && Unshifted(b)
    ensures MarginShift(a + b) == 0
  {
    UnshiftedAppend(a, b);
    NoShiftNoMargin(a + b);
  }

  /** `create_info`: nothing is drawn when the query fails; otherwise the
      functions section for the fetched rows. */
  function CreateInfo(db: RefCatalog, schema: Option<string>): (r: Option<seq<PdfOp>>)
    ensures r.None? <==> db.functions(FunctionQuery(schema)).None?
    ensures db.functions(FunctionQuery(schema)).Some? ==> r == Some(FunctionsSection(db.functions(FunctionQuery(schema)).value))
  {
    match db.functions(FunctionQuery(schema))
    case None => None
    case Some(rows) => Some(FunctionsSection(rows))
  }

  /** An argument string with `n` commas gives `n + 1` Input rows, and the
      table is drawn exactly when the string is non-empty. */
  lemma ArgumentRowsCount(row: FunctionRow)
    ensures |row.args| > 0 ==> |Texts(FunctionBlock(row), Cells)| == 2 * (Count(row.args, ',') + 1)
    ensures |row.args| == 0 ==> Texts(FunctionBlock(row), Cells) == []
  {
    if |row.args| > 0 {
      FlattenPairs(ArgumentTable(row.args));
    }
  }

  lemma {:induction false} FlattenPairs(t: seq<seq<string>>)
    requires forall i :: 0 <= i < |t| ==> |t[i]| == 2
    ensures |Flatten(t)| == 2 * |t|
  {
    if t != [] {
      FlattenPairs(t[1..]);
    }
  }

  // ---------------------------------------------------------------------
  // main

  /** The parsed command line. */
  datatype Options = Options(
    dbschema: Option<string>, outputFunctions: bool, outputTypes: bool, filename: Option<string>)

  /** A whole invocation: exit code, the drawing calls made, and how the PDF
      was saved (None when nothing was saved). */
  datatype Report = Report(exitCode: int, document: seq<PdfOp>, saved: Option<Pdf.Plan>)

  /** An optional section: drawn when enabled and its query succeeded. */
  function Section(enabled: bool, ops: Option<seq<PdfOp>>): seq<PdfOp> {
    if enabled then ops.GetOr([]) else []
  }

  /** Either query's section, once built, leaves the margin where it found it. */
  lemma SectionsBalanced(db: RefCatalog, schema: Option<string>)
    ensures CreateInfo(db, schema).Some? ==> MarginShift(CreateInfo(db, schema).value) == 0
    ensures CreateTypes(db, schema).Some? ==> MarginShift(CreateTypes(db, schema).value) == 0
  {
  }

  /** The two sections drawn one after the other: the functions section
      when enabled and present, then the types section likewise. */
  function Assemble(withFunctions: bool, functions: Option<seq<PdfOp>>,
                    withTypes: bool, types: Option<seq<PdfOp>>): (doc: seq<PdfOp>)
    requires functions.Some? ==> MarginShift(functions.value) == 0
    requires types.Some? ==> MarginShift(types.value) == 0
    ensures |doc| == |Section(withFunctions, functions)| + |Section(withTypes, types)|
    ensures MarginShift(doc) == 0
    ensures withFunctions && functions.Some? ==> StartsWithOps(doc, functions.value)
    ensures withTypes && types.Some? ==> EndsWithOps(doc, types.value)
    ensures (!withFunctions || functions.None?) && (!withTypes || types.None?) ==> doc == []
  {
    var f := Section(withFunctions, functions);
    var t := Section(withTypes, types);
    MarginShiftAppend(f, t);
    Concatenated(f, t);
    f + t
  }

  /** What `main` draws once connected: the functions section, then the
      types section, each when enabled and its query succeeded, and nothing
      else. The margin ends where it began, and nothing is drawn when
      neither section is. */
  function Document(opts: Options, db: RefCatalog): (doc: seq<PdfOp>)
    ensures |doc| == |Section(opts.outputFunctions, CreateInfo(db, OrNone(opts.dbschema)))|
                   + |Section(opts.outputTypes, CreateTypes(db, OrNone(opts.dbschema)))|
    ensures MarginShift(doc) == 0
    ensures opts.outputFunctions && CreateInfo(db, OrNone(opts.dbschema)).Some? ==>
      StartsWithOps(doc, CreateInfo(db, OrNone(opts.dbschema)).value)
    ensures opts.outputTypes && CreateTypes(db, OrNone(opts.dbschema)).Some? ==>
      EndsWithOps(doc, CreateTypes(db, OrNone(opts.dbschema)).value)
    ensures
      (&& (!opts.outputFunctions || CreateInfo(db, OrNone(opts.dbschema)).None?)
       && (!opts.outputTypes || CreateTypes(db, OrNone(opts.dbschema)).None?))
      ==> doc == []
  {
    var schema := OrNone(opts.dbschema);
    SectionsBalanced(db, schema);
    Assemble(opts.outputFunctions, CreateInfo(db, schema), opts.outputTypes, CreateTypes(db, schema))
  }

  /** `main`: exit 1 with nothing drawn or saved when connecting fails;
      otherwise the document is saved with `output(filename)`, which closes
      it and writes the file `filename or 'reference.pdf'`; exit 0. */
  function Main(opts: Options, db: RefCatalog): (r: Report)
    ensures r.exitCode == (if db.reachable then 0 else 1)
    ensures !db.reachable ==> r.document == [] && r.saved.None?
    ensures db.reachable ==>
      r.document == Document(opts, db)
      && r.saved.Some? && r.saved.value.closeFirst
      && r.saved.value.action == Pdf.WriteFile(OrElse(opts.filename, "reference.pdf"))
  {
    if !db.reachable then Report(1, [], None)
    else Report(0, Document(opts, db), Some(Pdf.Output(Pdf.PageOpen, OrElse(opts.filename, "reference.pdf"), "")))
  }

  /** `a + b` starts with `a`, ends with `b`, and is empty when both are. */
  lemma Concatenated(a: seq<PdfOp>, b: seq<PdfOp>)
    ensures StartsWithOps(a + b, a) && EndsWithOps(a + b, b)
    ensures a == [] && b == [] ==> a + b == []
  {
    assert (a + b)[..|a|] == a;
    assert (a + b)[|a + b| - |b|..] == b;
  }

  predicate StartsWithOps(s: seq<PdfOp>, p: seq<PdfOp>) {
    |p| <= |s| && s[..|p|] == p
  }

  predicate EndsWithOps(s: seq<PdfOp>, p: seq<PdfOp>) {
    |p| <= |s| && s[|s| - |p|..] == p
  }

  /** With no schema given, the type header prints Python's `None` as the
      schema. */
  lemma TypeHeaderWithoutSchema(name: string)
    ensures TypeHeader(None, name) == "CREATE TYPE None." + name + " {"
  {
  }
}
