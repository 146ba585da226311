/** The optional schema restriction every catalog query appends:
    `"<prefix>'<schema>'" if schema else ""`. The schema is interpolated
    verbatim, without quoting or escaping. */
module Sql {
  import opened Wrappers
  import opened Text

  /** Recovers the schema from a filter clause built with `prefix`; None when
      the clause is not of the form `prefix + "'" + s + "'"`. */
  function ParseSchemaFilter(prefix: string, clause: string): Option<string> {
    if |clause| >= |prefix| + 2 && clause[..|prefix|] == prefix
       && clause[|prefix|] == '\'' && clause[|clause| - 1] == '\''
    then Some(clause[|prefix| + 1..|clause| - 1])
    else None
  }

  /** The clause is present iff the schema is truthy; it begins with the
      prefix, holds the schema verbatim between single quotes, and parses back
      to exactly that schema. */
  function SchemaFilter(prefix: string, schema: Option<string>): (clause: string)
    ensures clause == "" <==> !Truthy(schema)
    ensures Truthy(schema) ==> |clause| == |prefix| + |schema.value| + 2
    ensures Truthy(schema) ==> clause[..|prefix|] == prefix
    ensures Truthy(schema) ==> clause[|prefix| + 1..|clause| - 1] == schema.value
    ensures ParseSchemaFilter(prefix, clause) == (if Truthy(schema) then Some(schema.value) else None)
  {
    if Truthy(schema) then
      var clause := prefix + "'" + schema.value + "'";
      assert clause[..|prefix|] == prefix;
      assert clause[|prefix| + 1..|clause| - 1] == schema.value;
      clause
    else ""
  }

  /** The other direction: any clause that parses to a non-empty schema is
      exactly the clause built from it. */
  lemma ParsedFilterRebuilds(prefix: string, clause: string)
    requires ParseSchemaFilter(prefix, clause).Some?
    requires ParseSchemaFilter(prefix, clause).value != ""
    ensures SchemaFilter(prefix, ParseSchemaFilter(prefix, clause)) == clause
  {
    var s := clause[|prefix| + 1..|clause| - 1];
    assert clause == clause[..|prefix|] + [clause[|prefix|]] + s + [clause[|clause| - 1]];
  }
}
