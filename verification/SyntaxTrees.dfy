/** The part of a Python syntax tree that collecting definitions and calls looks at. */
module SyntaxTrees {
  import opened Options

  datatype Expr =
    | Name(id: string)
    | Attribute(value: Expr, attr: string)
    | Call(func: Expr, args: seq<Expr>)
    | Other(parts: seq<Expr>)

  /** The header of a definition holds its decorators and what stands before its body. */
  datatype Stmt =
    | FunctionDef(name: string, header: seq<Expr>, body: seq<Stmt>)
    | ClassDef(name: string, header: seq<Expr>, body: seq<Stmt>)
    | Block(heads: seq<Expr>, body: seq<Stmt>, orelse: seq<Stmt>, finalbody: seq<Stmt>,
            handlers: seq<Clause>, cases: seq<Clause>)
    | Simple(exprs: seq<Expr>)

  /** An `except` or a `case`. */
  datatype Clause = Clause(heads: seq<Expr>, body: seq<Stmt>)

  predicate IsDefinition(s: Stmt) {
    s.FunctionDef? || s.ClassDef?
  }

  function ClauseBodies(clauses: seq<Clause>): (bodies: seq<seq<Stmt>>)
    ensures |bodies| == |clauses| && forall i :: 0 <= i < |bodies| ==> bodies[i] == clauses[i].body
  {
    seq(|clauses|, i requires 0 <= i < |clauses| => clauses[i].body)
  }

  /** The statement lists directly inside a statement; for a block, `_block_bodies`. */
  function Bodies(s: Stmt): seq<seq<Stmt>> {
    match s
    case FunctionDef(_, _, body) => [body]
    case ClassDef(_, _, body) => [body]
    case Block(_, body, orelse, finalbody, handlers, cases) =>
      [body, orelse, finalbody] + ClauseBodies(handlers) + ClauseBodies(cases)
    case Simple(_) => []
  }

  function Flat(bodies: seq<seq<Stmt>>, n: nat): seq<Stmt>
    requires n <= |bodies|
  {
    if n == 0 then [] else Flat(bodies, n - 1) + bodies[n - 1]
  }

  ghost predicate Inside(x: Stmt, s: Stmt) {
    x < s
  }

  lemma BodiesAreInside(s: Stmt, b: nat, i: nat)
    requires b < |Bodies(s)| && i < |Bodies(s)[b]|
    ensures Inside(Bodies(s)[b][i], s)
  {
    if s.Block? && b >= 3 {
      var clauses, k := if b - 3 < |s.handlers| then s.handlers else s.cases,
                        if b - 3 < |s.handlers| then b - 3 else b - 3 - |s.handlers|;
      assert Bodies(s)[b] == clauses[k].body;
      assert clauses[k].body[i] < clauses[k] && clauses[k] < s;
    }
  }

  lemma {:induction false} FlatIsInside(s: Stmt, n: nat)
    requires n <= |Bodies(s)|
    ensures forall i :: 0 <= i < |Flat(Bodies(s), n)| ==> Inside(Flat(Bodies(s), n)[i], s)
  {
    if n > 0 {
      FlatIsInside(s, n - 1);
      var last := Bodies(s)[n - 1];
      forall i | 0 <= i < |last| ensures Inside(last[i], s) {
        BodiesAreInside(s, n - 1, i);
      }
    }
  }

  /** The statements directly inside one. */
  function Nested(s: Stmt): (inner: seq<Stmt>)
    ensures forall i :: 0 <= i < |inner| ==> Inside(inner[i], s)
  {
    FlatIsInside(s, |Bodies(s)|);
    Flat(Bodies(s), |Bodies(s)|)
  }

  /** A module as a block that opens no scope. */
  function ModuleTree(body: seq<Stmt>): Stmt {
    Block([], body, [], [], [], [])
  }

  // ---------------------------------------------------------------------------
  // Places in a tree.
  // ---------------------------------------------------------------------------

  /** Positions among nested statements, from the root down. */
  type Address = seq<nat>

  function At(root: Stmt, address: Address): Option<Stmt>
    decreases address
  {
    if address == [] then Some(root)
    else if address[0] < |Nested(root)| then At(Nested(root)[address[0]], address[1..])
    else None
  }

  datatype Scope = Scope(isClass: bool, name: string)

  function ScopeOf(s: Stmt): seq<Scope> {
    if IsDefinition(s) then [Scope(s.ClassDef?, s.name)] else []
  }

  /** The definitions around the place, outermost first, the one at the place not among them. */
  function ScopesAt(root: Stmt, address: Address): seq<Scope>
    requires At(root, address).Some?
    decreases address
  {
    if address == [] then [] else ScopeOf(root) + ScopesAt(Nested(root)[address[0]], address[1..])
  }

  lemma OneStepDown(root: Stmt, k: nat, below: Address)
    requires k < |Nested(root)|
    ensures At(root, [k] + below) == At(Nested(root)[k], below)
    ensures At(root, [k] + below).Some? ==> ScopesAt(root, [k] + below) == ScopeOf(root) + ScopesAt(Nested(root)[k], below)
  {
    hide Nested;
    assert ([k] + below)[1..] == below;
  }

  lemma FirstStep(root: Stmt, address: Address)
    requires address != [] && At(root, address).Some?
    ensures address[0] < |Nested(root)| && At(root, address) == At(Nested(root)[address[0]], address[1..])
    ensures ScopesAt(root, address) == ScopeOf(root) + ScopesAt(Nested(root)[address[0]], address[1..])
  {
    hide Nested, ScopeOf;
  }

  lemma NoStep(root: Stmt)
    ensures At(root, []) == Some(root) && ScopesAt(root, []) == []
  {
  }
}
