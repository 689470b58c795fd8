/** The walk that appends to shared lists, and what it appends. */
module DefinitionCollector {
  import opened Options
  import opened SyntaxTrees
  import opened CallCollection
  import opened Definitions

  /** The four lists. */
  datatype Output = Output(classes: seq<Definition>, functions: seq<Definition>, methods: seq<Definition>, calls: seq<CallRecord>)

  const NOTHING := Output([], [], [], [])

  function Plus(a: Output, b: Output): Output {
    Output(a.classes + b.classes, a.functions + b.functions, a.methods + b.methods, a.calls + b.calls)
  }

  function Tagged(caller: string, callees: seq<string>): (records: seq<CallRecord>)
    ensures |records| == |callees| && forall i :: 0 <= i < |callees| ==> records[i] == CallRecord(caller, callees[i])
  {
    seq(|callees|, i requires 0 <= i < |callees| => CallRecord(caller, callees[i]))
  }

  /** What one definition adds. */
  ghost function OutputOfOne(home: string, f: Found): Output
    requires IsDefinition(f.stmt)
  {
    var record := RecordOf(home, f);
    match RoleOf(f)
    case AsClass => Output([record], [], [], [])
    case AsFunction => Output([], [record], [], Tagged(record.qualifiedName, BodyCalls(f.stmt)))
    case AsMethod => Output([], [], [record], Tagged(record.qualifiedName, BodyCalls(f.stmt)))
  }

  ghost function OutputOf(home: string, found: seq<Found>): Output {
    if found == [] then NOTHING
    else
      var f := found[|found| - 1];
      var before := OutputOf(home, found[..|found| - 1]);
      if IsDefinition(f.stmt) then Plus(before, OutputOfOne(home, f)) else before
  }

  lemma PlusIsAssociative(a: Output, b: Output, c: Output)
    ensures Plus(Plus(a, b), c) == Plus(a, Plus(b, c))
    ensures Plus(a, NOTHING) == a && Plus(NOTHING, a) == a
  {
  }

  lemma {:induction false} OutputOfBoth(home: string, a: seq<Found>, b: seq<Found>)
    ensures OutputOf(home, a + b) == Plus(OutputOf(home, a), OutputOf(home, b))
  {
    if b == [] {
      assert a + b == a;
      PlusIsAssociative(OutputOf(home, a), NOTHING, NOTHING);
    } else {
      var n := |b| - 1;
      assert (a + b)[..|a + b| - 1] == a + b[..n];
      OutputOfBoth(home, a, b[..n]);
      if IsDefinition(b[n].stmt) {
        PlusIsAssociative(OutputOf(home, a), OutputOf(home, b[..n]), OutputOfOne(home, b[n]));
      }
      hide Plus, OutputOfOne;
    }
  }

  lemma OutputOfSingle(home: string, f: Found)
    requires IsDefinition(f.stmt)
    ensures OutputOf(home, [f]) == OutputOfOne(home, f)
  {
    hide OutputOfOne;
    assert [f][..0] == [];
    PlusIsAssociative(OutputOfOne(home, f), NOTHING, NOTHING);
  }

  // ---------------------------------------------------------------------------
  // The walk over a part of the nested statements.
  // ---------------------------------------------------------------------------

  /** Walking a stretch of statements on its own, from its offset, finds what walking past it finds. */
  lemma {:induction false} WalkSplits(
    items: seq<Stmt>, m: nat, part: seq<Stmt>, k: nat, owner: Stmt, prefix: Address, scopes: seq<Scope>)
    requires k <= |part| && m + |part| <= |items| && items[m..m + |part|] == part
    requires AllInside(items, owner) && AllInside(part, owner)
    ensures WalkList(items, m + k, owner, prefix, 0, scopes)
            == WalkList(items, m, owner, prefix, 0, scopes) + WalkList(part, k, owner, prefix, m, scopes)
  {
    hide WalkList, WalkOne;
    if k == 0 {
      WalkNone(part, owner, prefix, m, scopes);
    } else {
      WalkSplits(items, m, part, k - 1, owner, prefix, scopes);
      WalkStep(items, m + k, owner, prefix, 0, scopes);
      WalkStep(part, k, owner, prefix, m, scopes);
      assert items[m + k - 1] == part[k - 1];
      assert 0 + (m + k) - 1 == m + k - 1;
    }
  }

  lemma {:induction false} FlatIsPrefix(bodies: seq<seq<Stmt>>, b: nat, n: nat)
    requires b <= n <= |bodies|
    ensures |Flat(bodies, b)| <= |Flat(bodies, n)| && Flat(bodies, n)[..|Flat(bodies, b)|] == Flat(bodies, b)
  {
    if b < n {
      FlatIsPrefix(bodies, b, n - 1);
    }
  }

  lemma BodyIsAStretch(s: Stmt, b: nat)
    requires b < |Bodies(s)|
    ensures var m, part := |Flat(Bodies(s), b)|, Bodies(s)[b];
            m + |part| == |Flat(Bodies(s), b + 1)| <= |Nested(s)| && Nested(s)[m..m + |part|] == part && AllInside(part, s)
  {
    var m, part := |Flat(Bodies(s), b)|, Bodies(s)[b];
    FlatIsPrefix(Bodies(s), b + 1, |Bodies(s)|);
    assert Flat(Bodies(s), b + 1) == Flat(Bodies(s), b) + part;
    assert Nested(s)[..m + |part|][m..] == part;
    forall i | 0 <= i < |part| ensures Inside(part[i], s) {
      BodiesAreInside(s, b, i);
    }
  }

  lemma NestedOfDefinition(s: Stmt)
    requires IsDefinition(s)
    ensures Nested(s) == s.body && AllInside(s.body, s)
  {
    assert Bodies(s) == [s.body];
    assert Flat(Bodies(s), 1) == Flat(Bodies(s), 0) + s.body;
  }

  // ---------------------------------------------------------------------------
  // Collecting.
  // ---------------------------------------------------------------------------

  class Collector {
    var classes: seq<Definition>
    var functions: seq<Definition>
    var methods: seq<Definition>
    var calls: seq<CallRecord>

    constructor ()
      ensures Value() == NOTHING
    {
      classes, functions, methods, calls := [], [], [], [];
    }

    ghost function Value(): Output
      reads this
    {
      Output(classes, functions, methods, calls)
    }

    /** `_collect_definitions`; the ghost parameters say where in the tree `body` stands. */
    method Collect(body: seq<Stmt>, namespace: string, classQn: Option<string>,
                   ghost owner: Stmt, ghost prefix: Address, ghost offset: nat, ghost home: string, ghost scopes: seq<Scope>)
      requires AllInside(body, owner) && namespace == Namespace(home, scopes) && (classQn.Some? <==> InClass(scopes))
      modifies this
      ensures Value() == Plus(old(Value()), OutputOf(home, WalkList(body, |body|, owner, prefix, offset, scopes)))
      decreases owner, 1
    {
      hide WalkList, WalkOne, OutputOf, Plus, Namespace, InClass;
      WalkNone(body, owner, prefix, offset, scopes);
      NothingFound(home, old(Value()));
      for n := 0 to |body|
        invariant Value() == Plus(old(Value()), OutputOf(home, WalkList(body, n, owner, prefix, offset, scopes)))
      {
        ghost var here := prefix + [offset + n];
        ghost var done := WalkList(body, n, owner, prefix, offset, scopes);
        ghost var more := WalkOne(body[n], here, scopes, owner);
        CollectOne(body[n], namespace, classQn, owner, here, home, scopes);
        assert prefix + [offset + (n + 1) - 1] == here;
        WalkStep(body, n + 1, owner, prefix, offset, scopes);
        OutputOfBoth(home, done, more);
        PlusIsAssociative(old(Value()), OutputOf(home, done), OutputOf(home, more));
      }
    }

    method CollectOne(node: Stmt, namespace: string, classQn: Option<string>,
                      ghost owner: Stmt, ghost here: Address, ghost home: string, ghost scopes: seq<Scope>)
      requires Inside(node, owner) && namespace == Namespace(home, scopes) && (classQn.Some? <==> InClass(scopes))
      modifies this
      ensures Value() == Plus(old(Value()), OutputOf(home, WalkOne(node, here, scopes, owner)))
      decreases owner, 0
    {
      match node
      case FunctionDef(_, _, _) => CollectCallable(node, namespace, classQn, owner, here, home, scopes);
      case ClassDef(_, _, _) => CollectClass(node, namespace, owner, here, home, scopes);
      case Block(_, _, _, _, _, _) => CollectBlock(node, namespace, classQn, owner, here, home, scopes);
      case Simple(_) =>
        NothingInside(node, here, scopes, owner);
        NothingFound(home, old(Value()));
    }

    method CollectCallable(node: Stmt, namespace: string, classQn: Option<string>,
                           ghost owner: Stmt, ghost here: Address, ghost home: string, ghost scopes: seq<Scope>)
      requires node.FunctionDef? && Inside(node, owner)
      requires namespace == Namespace(home, scopes) && (classQn.Some? <==> InClass(scopes))
      modifies this
      ensures Value() == Plus(old(Value()), OutputOf(home, WalkOne(node, here, scopes, owner)))
      decreases node, 2
    {
      hide WalkList, WalkOne, OutputOf;
      var qn := JoinQn(namespace, node.name);
      var parsed := Definition(node.name, qn, namespace);
      var callees := CollectCalls(node);
      if classQn.Some? {
        methods := methods + [parsed];
      } else {
        functions := functions + [parsed];
      }
      calls := calls + Tagged(qn, callees);
      ghost var f := Found(here, node, scopes);
      assert Value() == Plus(old(Value()), OutputOfOne(home, f));
      NamespaceBelow(home, scopes, node);
      NestedOfDefinition(node);
      Collect(node.body, qn, None, node, here, 0, home, scopes + ScopeOf(node));
      DefinitionThenBody(home, old(Value()), f, owner);
    }

    method CollectClass(node: Stmt, namespace: string,
                        ghost owner: Stmt, ghost here: Address, ghost home: string, ghost scopes: seq<Scope>)
      requires node.ClassDef? && Inside(node, owner) && namespace == Namespace(home, scopes)
      modifies this
      ensures Value() == Plus(old(Value()), OutputOf(home, WalkOne(node, here, scopes, owner)))
      decreases node, 2
    {
      hide WalkList, WalkOne, OutputOf;
      var qn := JoinQn(namespace, node.name);
      classes := classes + [Definition(node.name, qn, namespace)];
      ghost var f := Found(here, node, scopes);
      assert Value() == Plus(old(Value()), OutputOfOne(home, f));
      NamespaceBelow(home, scopes, node);
      NestedOfDefinition(node);
      Collect(node.body, qn, Some(qn), node, here, 0, home, scopes + ScopeOf(node));
      DefinitionThenBody(home, old(Value()), f, owner);
    }

    method CollectBlock(node: Stmt, namespace: string, classQn: Option<string>,
                        ghost owner: Stmt, ghost here: Address, ghost home: string, ghost scopes: seq<Scope>)
      requires node.Block? && Inside(node, owner)
      requires namespace == Namespace(home, scopes) && (classQn.Some? <==> InClass(scopes))
      modifies this
      ensures Value() == Plus(old(Value()), OutputOf(home, WalkOne(node, here, scopes, owner)))
      decreases node, 2
    {
      hide WalkList, WalkOne, OutputOf, Plus, Namespace, InClass, Nested, Bodies;
      var blocks := Bodies(node);
      WalkNone(Nested(node), node, here, 0, scopes);
      NothingFound(home, old(Value()));
      for b := 0 to |blocks|
        invariant |Flat(blocks, b)| <= |Nested(node)|
        invariant Value() == Plus(old(Value()), OutputOf(home, WalkList(Nested(node), |Flat(blocks, b)|, node, here, 0, scopes)))
      {
        ghost var m := |Flat(blocks, b)|;
        ghost var done := WalkList(Nested(node), m, node, here, 0, scopes);
        BodyIsAStretch(node, b);
        Collect(blocks[b], namespace, classQn, node, here, m, home, scopes);
        ghost var more := WalkList(blocks[b], |blocks[b]|, node, here, m, scopes);
        WalkSplits(Nested(node), m, blocks[b], |blocks[b]|, node, here, scopes);
        OutputOfBoth(home, done, more);
        PlusIsAssociative(old(Value()), OutputOf(home, done), OutputOf(home, more));
      }
      BlockIsItsBodies(node, here, scopes, owner);
    }
  }

  lemma NothingFound(home: string, before: Output)
    ensures Plus(before, OutputOf(home, [])) == before
  {
    PlusIsAssociative(before, NOTHING, NOTHING);
  }

  lemma NothingInside(s: Stmt, here: Address, scopes: seq<Scope>, owner: Stmt)
    requires s.Simple? && Inside(s, owner)
    ensures WalkOne(s, here, scopes, owner) == []
  {
    assert Bodies(s) == [] && Nested(s) == [];
  }

  lemma NamespaceBelow(home: string, scopes: seq<Scope>, s: Stmt)
    requires IsDefinition(s)
    ensures Namespace(home, scopes + ScopeOf(s)) == JoinQn(Namespace(home, scopes), s.name)
    ensures InClass(scopes + ScopeOf(s)) <==> s.ClassDef?
  {
    var all := scopes + ScopeOf(s);
    assert all[..|all| - 1] == scopes;
  }

  lemma DefinitionThenBody(home: string, before: Output, f: Found, owner: Stmt)
    requires IsDefinition(f.stmt) && Inside(f.stmt, owner) && AllInside(f.stmt.body, f.stmt)
    ensures Plus(Plus(before, OutputOfOne(home, f)),
                 OutputOf(home, WalkList(f.stmt.body, |f.stmt.body|, f.stmt, f.address, 0, f.scopes + ScopeOf(f.stmt))))
            == Plus(before, OutputOf(home, WalkOne(f.stmt, f.address, f.scopes, owner)))
  {
    var inner := WalkList(f.stmt.body, |f.stmt.body|, f.stmt, f.address, 0, f.scopes + ScopeOf(f.stmt));
    NestedOfDefinition(f.stmt);
    assert WalkOne(f.stmt, f.address, f.scopes, owner) == [f] + inner by {
      hide WalkList, Nested;
    }
    OutputOfBoth(home, [f], inner);
    OutputOfSingle(home, f);
    PlusIsAssociative(before, OutputOfOne(home, f), OutputOf(home, inner));
    hide *;
  }

  lemma BlockIsItsBodies(s: Stmt, here: Address, scopes: seq<Scope>, owner: Stmt)
    requires s.Block? && Inside(s, owner)
    ensures WalkOne(s, here, scopes, owner) == WalkList(Nested(s), |Nested(s)|, s, here, 0, scopes)
    ensures |Flat(Bodies(s), |Bodies(s)|)| == |Nested(s)|
  {
    hide WalkList;
    assert scopes + ScopeOf(s) == scopes;
  }

  /** A whole module: its lists are exactly the records of what the walk finds. */
  method CollectModule(body: seq<Stmt>, home: string) returns (output: Output)
    ensures output == OutputOf(home, Walk(ModuleTree(body)))
  {
    var c := new Collector();
    ghost var root := ModuleTree(body);
    ModuleBodies(body);
    BodyIsAStretch(root, 0);
    c.Collect(body, home, None, root, [], 0, home, []);
    ModuleWalk(body);
    PlusIsAssociative(OutputOf(home, Walk(root)), NOTHING, NOTHING);
    output := Output(c.classes, c.functions, c.methods, c.calls);
  }

  lemma ModuleWalk(body: seq<Stmt>)
    ensures var root := ModuleTree(body);
            AllInside(body, root) && Walk(root) == WalkList(body, |body|, root, [], 0, [])
  {
    ModuleBodies(body);
    BodyIsAStretch(ModuleTree(body), 0);
    hide Nested, WalkList;
  }

  lemma ModuleBodies(body: seq<Stmt>)
    ensures var root := ModuleTree(body);
            Bodies(root) == [body, [], []] && Nested(root) == body
  {
    var bodies := Bodies(ModuleTree(body));
    assert bodies == [body, [], []];
    FlatStep(bodies, 0);
    FlatStep(bodies, 1);
    FlatStep(bodies, 2);
    hide Flat, Bodies;
  }

  lemma FlatStep(bodies: seq<seq<Stmt>>, n: nat)
    requires n < |bodies|
    ensures Flat(bodies, n + 1) == Flat(bodies, n) + bodies[n] && Flat(bodies, 0) == []
  {
  }
}
