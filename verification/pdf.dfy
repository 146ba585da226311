/** `UnicodeFPDF.output` (pg_deps_parser/pdf.py): how the requested name and
    destination resolve, and what is done with the finished PDF buffer. */
module Pdf {
  import opened Wrappers
  import opened Text

  /** fpdf's document state once a page is open; 3 means closed. */
  const PageOpen := 2
  const Closed := 3

  /** What `output` does with the buffer: print it (I and D), write it to a
      file (F), return it (S), or raise through `self.error`. */
  datatype Action = PrintBuffer | WriteFile(path: string) | ReturnBuffer | Raise(message: string)

  /** The resolved call: whether the document is closed first, the resolved
      name and destination, and the action taken. */
  datatype Plan = Plan(closeFirst: bool, name: string, dest: string, action: Action)

  /** The destinations `output` knows. */
  predicate KnownDest(d: string) {
    d == "I" || d == "D" || d == "F" || d == "S"
  }

  /** Name and destination after defaulting: the destination is upper-cased
      first; an empty one becomes I with name `doc.pdf` when the name is empty
      too, and F (keeping the name) otherwise. */
  function Resolve(name: string, dest: string): (r: (string, string))
    ensures r.1 != ""
    ensures dest != "" ==> r == (name, Upper(dest))
    ensures dest == "" && name == "" ==> r == ("doc.pdf", "I")
    ensures dest == "" && name != "" ==> r == (name, "F")
  {
    var d := Upper(dest);
    if d == "" then
      if name == "" then ("doc.pdf", "I") else (name, "F")
    else (name, d)
  }

  /** A resolved pair resolves to itself. */
  lemma ResolveIdempotent(name: string, dest: string)
    ensures Resolve(Resolve(name, dest).0, Resolve(name, dest).1) == Resolve(name, dest)
  {
    UpperIdempotent(dest);
    assert Upper("I") == "I" && Upper("F") == "F";
  }

  /** `output(name, dest)` on a document in `state`. */
  function Output(state: int, name: string, dest: string): (p: Plan)
    ensures p.closeFirst <==> state < Closed
    ensures (p.name, p.dest) == Resolve(name, dest)
    ensures p.action.Raise? <==> !KnownDest(p.dest)
    ensures p.action.Raise? ==> p.action.message == "Incorrect output destination: " + p.dest
    ensures p.action == PrintBuffer <==> p.dest == "I" || p.dest == "D"
    ensures p.action.WriteFile? <==> p.dest == "F"
    ensures p.action.WriteFile? ==> p.action.path == p.name
    ensures p.action == ReturnBuffer <==> p.dest == "S"
  {
    var (n, d) := Resolve(name, dest);
    var action :=
      if d == "I" then PrintBuffer
      else if d == "D" then PrintBuffer
      else if d == "F" then WriteFile(n)
      else if d == "S" then ReturnBuffer
      else Raise("Incorrect output destination: " + d);
    Plan(state < Closed, n, d, action)
  }

  /** The value `output` returns: the buffer for S, the empty string for I,
      D and F, and none when it raises. */
  function ReturnValue(p: Plan, buffer: string): (v: Option<string>)
    ensures v.None? <==> p.action.Raise?
    ensures v == Some(buffer) <== p.action == ReturnBuffer
    ensures p.action.PrintBuffer? || p.action.WriteFile? ==> v == Some("")
  {
    match p.action
    case ReturnBuffer => Some(buffer)
    case Raise(_) => None
    case _ => Some("")
  }

  /** The destination's letter case does not matter. */
  lemma DestCaseInsensitive(state: int, name: string, dest: string)
    ensures Output(state, name, dest) == Output(state, name, Upper(dest))
  {
    UpperIdempotent(dest);
  }

  /** `output` raises exactly when a non-empty destination does not
      upper-case to I, D, F or S. */
  lemma RaisesExactly(state: int, name: string, dest: string)
    ensures Output(state, name, dest).action.Raise? <==> dest != "" && !KnownDest(Upper(dest))
  {
  }

  /** A lower-case `f` writes the named file. */
  lemma LowerCaseFile(state: int, name: string)
    ensures Output(state, name, "f").action == WriteFile(name)
  {
    assert Upper("f") == "F";
  }
}
