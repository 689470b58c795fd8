/** The calls a callable makes itself: `_CallCollector`, and the callee names it records. */
module CallCollection {
  import opened Options
  import opened SyntaxTrees

  // ---------------------------------------------------------------------------
  // Callee names.
  // ---------------------------------------------------------------------------

  /** The dotted name of a callee that is a name or an attribute chain rooted in one. */
  function RootedName(func: Expr): Option<string> {
    match func
    case Name(id) => Some(id)
    case Attribute(value, attr) =>
      var root := RootedName(value);
      if root.Some? then Some(root.value + "." + attr) else None
    case _ => None
  }

  /** `".".join(reversed(parts))`, each part after a dot but the last one collected */
  function DottedFrom(id: string, parts: seq<string>): string {
    if parts == [] then id else DottedFrom(id, parts[1..]) + "." + parts[0]
  }

  lemma {:induction false} DottedAppend(root: string, part: string, parts: seq<string>)
    ensures DottedFrom(root, parts + [part]) == DottedFrom(root + "." + part, parts)
  {
    if parts == [] {
      assert ([] + [part])[1..] == [];
    } else {
      assert (parts + [part])[1..] == parts[1..] + [part];
      DottedAppend(root, part, parts[1..]);
    }
  }

  /** Follows the chain down to its root, collecting attributes on the way. */
  method CalleeName(func: Expr) returns (name: Option<string>)
    ensures name == RootedName(func)
  {
    var current, parts := func, [];
    while current.Attribute?
      invariant RootedName(func)
                == if RootedName(current).Some? then Some(DottedFrom(RootedName(current).value, parts)) else None
      decreases current
    {
      if RootedName(current.value).Some? {
        DottedAppend(RootedName(current.value).value, current.attr, parts);
      }
      parts := parts + [current.attr];
      current := current.value;
    }
    name := if current.Name? then Some(DottedFrom(current.id, parts)) else None;
  }

  // ---------------------------------------------------------------------------
  // Calls in expressions.
  // ---------------------------------------------------------------------------

  ghost predicate Within(x: Expr, e: Expr) {
    x < e
  }

  function Parts(e: Expr): (parts: seq<Expr>)
    ensures forall i :: 0 <= i < |parts| ==> Within(parts[i], e)
  {
    match e
    case Name(_) => []
    case Attribute(value, _) => [value]
    case Call(func, args) => [func] + args
    case Other(parts) => parts
  }

  function OwnCall(e: Expr): seq<string> {
    if e.Call? && RootedName(e.func).Some? && RootedName(e.func).value != "" then [RootedName(e.func).value] else []
  }

  /** The callees of an expression and of its first `n` parts, outer calls first. */
  function CallsTo(e: Expr, n: nat): seq<string>
    requires n <= |Parts(e)|
    decreases e, n
  {
    if n == 0 then OwnCall(e) else CallsTo(e, n - 1) + CallsTo(Parts(e)[n - 1], |Parts(Parts(e)[n - 1])|)
  }

  lemma CallsStep(e: Expr, n: nat)
    requires n < |Parts(e)|
    ensures CallsTo(e, n + 1) == CallsTo(e, n) + CallsTo(Parts(e)[n], |Parts(Parts(e)[n])|)
  {
    hide OwnCall, Parts;
  }

  lemma CallsStart(e: Expr)
    ensures CallsTo(e, 0) == OwnCall(e)
  {
    hide OwnCall, Parts;
  }

  function CallsOfAll(exprs: seq<Expr>, n: nat): seq<string>
    requires n <= |exprs|
  {
    if n == 0 then [] else CallsOfAll(exprs, n - 1) + CallsTo(exprs[n - 1], |Parts(exprs[n - 1])|)
  }

  function CallsOf(exprs: seq<Expr>): seq<string> {
    CallsOfAll(exprs, |exprs|)
  }

  // ---------------------------------------------------------------------------
  // Calls in statements.
  // ---------------------------------------------------------------------------

  ghost predicate AllInside(items: seq<Stmt>, owner: Stmt) {
    forall i :: 0 <= i < |items| ==> Inside(items[i], owner)
  }

  lemma PartsOfBlock(s: Stmt)
    requires s.Block?
    ensures AllInside(s.body, s) && AllInside(s.orelse, s) && AllInside(s.finalbody, s)
    ensures forall k :: 0 <= k < |s.handlers| ==> AllInside(s.handlers[k].body, s)
    ensures forall k :: 0 <= k < |s.cases| ==> AllInside(s.cases[k].body, s)
  {
    BodyIsInside(s, 0);
    BodyIsInside(s, 1);
    BodyIsInside(s, 2);
    forall k | 0 <= k < |s.handlers| ensures AllInside(s.handlers[k].body, s) {
      BodyIsInside(s, 3 + k);
    }
    forall k | 0 <= k < |s.cases| ensures AllInside(s.cases[k].body, s) {
      BodyIsInside(s, 3 + |s.handlers| + k);
    }
  }

  lemma BodyIsInside(s: Stmt, b: nat)
    requires b < |Bodies(s)|
    ensures AllInside(Bodies(s)[b], s)
  {
    forall i | 0 <= i < |Bodies(s)[b]| ensures Inside(Bodies(s)[b][i], s) {
      BodiesAreInside(s, b, i);
    }
  }

  /** What the collector records in one statement: nested definitions are passed over whole. */
  ghost function CallsInStmt(s: Stmt, owner: Stmt): seq<string>
    requires Inside(s, owner)
    decreases owner, 0, 0
  {
    match s
    case FunctionDef(_, _, _) => []
    case ClassDef(_, _, _) => []
    case Simple(exprs) => CallsOf(exprs)
    case Block(_, _, _, _, _, _) => CallsInBlock(s)
  }

  ghost function CallsInBlock(s: Stmt): seq<string>
    requires s.Block?
    decreases s, 3
  {
    PartsOfBlock(s);
    CallsOf(s.heads) + CallsInList(s.body, |s.body|, s) + CallsInClauses(s.handlers, |s.handlers|, s)
    + CallsInList(s.orelse, |s.orelse|, s) + CallsInList(s.finalbody, |s.finalbody|, s)
    + CallsInClauses(s.cases, |s.cases|, s)
  }

  ghost function CallsInList(items: seq<Stmt>, n: nat, owner: Stmt): seq<string>
    requires n <= |items| && AllInside(items, owner)
    decreases owner, 1, n
  {
    if n == 0 then [] else CallsInList(items, n - 1, owner) + CallsInStmt(items[n - 1], owner)
  }

  ghost function CallsInClauses(clauses: seq<Clause>, n: nat, owner: Stmt): seq<string>
    requires n <= |clauses| && forall k :: 0 <= k < |clauses| ==> AllInside(clauses[k].body, owner)
    decreases owner, 2, n
  {
    if n == 0 then []
    else CallsInClauses(clauses, n - 1, owner) + CallsOf(clauses[n - 1].heads)
         + CallsInList(clauses[n - 1].body, |clauses[n - 1].body|, owner)
  }

  /** `_collect_calls` */
  ghost function BodyCalls(f: Stmt): seq<string>
    requires f.FunctionDef?
  {
    CallsInList(f.body, |f.body|, f)
  }

  /** The visitor: calls are appended in the order they are met. */
  class CallCollector {
    var calls: seq<string>

    constructor ()
      ensures calls == []
    {
      calls := [];
    }

    method VisitExpr(e: Expr)
      modifies this
      ensures calls == old(calls) + CallsTo(e, |Parts(e)|)
      decreases e
    {
      hide CallsTo, RootedName, Parts;
      CallsStart(e);
      if e.Call? {
        var name := CalleeName(e.func);
        if name.Some? && name.value != "" {
          calls := calls + [name.value];
        }
      }
      assert calls == old(calls) + OwnCall(e);
      hide OwnCall;
      for n := 0 to |Parts(e)|
        invariant calls == old(calls) + CallsTo(e, n)
      {
        VisitExpr(Parts(e)[n]);
        CallsStep(e, n);
      }
    }

    method VisitAll(exprs: seq<Expr>)
      modifies this
      ensures calls == old(calls) + CallsOf(exprs)
    {
      for n := 0 to |exprs|
        invariant calls == old(calls) + CallsOfAll(exprs, n)
      {
        VisitExpr(exprs[n]);
      }
    }

    method VisitStmt(s: Stmt, ghost owner: Stmt)
      requires Inside(s, owner)
      modifies this
      ensures calls == old(calls) + CallsInStmt(s, owner)
      decreases owner, 0, 0
    {
      hide CallsOf, CallsInList, CallsInClauses;
      match s
      case FunctionDef(_, _, _) =>
      case ClassDef(_, _, _) =>
      case Simple(exprs) => VisitAll(exprs);
      case Block(heads, body, orelse, finalbody, handlers, cases) => VisitBlock(s);
    }

    method VisitBlock(s: Stmt)
      requires s.Block?
      modifies this
      ensures calls == old(calls) + CallsInBlock(s)
      decreases s, 3
    {
      hide CallsOf, CallsInList, CallsInClauses;
      PartsOfBlock(s);
      VisitAll(s.heads);
      VisitList(s.body, s);
      VisitClauses(s.handlers, s);
      assert calls == old(calls) + (CallsOf(s.heads) + CallsInList(s.body, |s.body|, s) + CallsInClauses(s.handlers, |s.handlers|, s));
      VisitList(s.orelse, s);
      VisitList(s.finalbody, s);
      VisitClauses(s.cases, s);
    }

    method VisitList(items: seq<Stmt>, ghost owner: Stmt)
      requires AllInside(items, owner)
      modifies this
      ensures calls == old(calls) + CallsInList(items, |items|, owner)
      decreases owner, 1, |items|
    {
      hide CallsInStmt;
      for n := 0 to |items|
        invariant calls == old(calls) + CallsInList(items, n, owner)
      {
        VisitStmt(items[n], owner);
      }
    }

    method VisitClauses(clauses: seq<Clause>, ghost owner: Stmt)
      requires forall k :: 0 <= k < |clauses| ==> AllInside(clauses[k].body, owner)
      modifies this
      ensures calls == old(calls) + CallsInClauses(clauses, |clauses|, owner)
      decreases owner, 2, |clauses|
    {
      hide CallsInList, CallsOf;
      for n := 0 to |clauses|
        invariant calls == old(calls) + CallsInClauses(clauses, n, owner)
      {
        ghost var before := CallsInClauses(clauses, n, owner);
        VisitAll(clauses[n].heads);
        assert calls == old(calls) + (before + CallsOf(clauses[n].heads));
        VisitList(clauses[n].body, owner);
      }
    }
  }

  method CollectCalls(f: Stmt) returns (calls: seq<string>)
    requires f.FunctionDef?
    ensures calls == BodyCalls(f)
  {
    var collector := new CallCollector();
    collector.VisitList(f.body, f);
    calls := collector.calls;
  }
}
