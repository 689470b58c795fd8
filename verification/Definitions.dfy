/** Recording every class, function and method of a module, at every depth. */
module Definitions {
  import opened Options
  import opened SyntaxTrees
  import opened CallCollection

  /** A definition, where it stands, and the definitions around it. */
  datatype Found = Found(address: Address, stmt: Stmt, scopes: seq<Scope>)

  datatype Role = AsClass | AsFunction | AsMethod

  datatype Definition = Definition(name: string, qualifiedName: string, parent: string)

  datatype CallRecord = CallRecord(caller: string, callee: string)

  /** `_join_qn` */
  function JoinQn(namespace: string, name: string): string {
    if namespace != "" then namespace + "." + name else name
  }

  /** The name under which the definitions in a scope stand. */
  function Namespace(home: string, scopes: seq<Scope>): string {
    if scopes == [] then home else JoinQn(Namespace(home, scopes[..|scopes| - 1]), scopes[|scopes| - 1].name)
  }

  predicate InClass(scopes: seq<Scope>) {
    scopes != [] && scopes[|scopes| - 1].isClass
  }

  function RoleOf(f: Found): Role {
    if f.stmt.ClassDef? then AsClass else if InClass(f.scopes) then AsMethod else AsFunction
  }

  function RecordOf(home: string, f: Found): Definition
    requires IsDefinition(f.stmt)
  {
    Definition(f.stmt.name, JoinQn(Namespace(home, f.scopes), f.stmt.name), Namespace(home, f.scopes))
  }

  // ---------------------------------------------------------------------------
  // The walk.
  // ---------------------------------------------------------------------------

  /** The definitions in the first `n` of some statements and below them, in source order; the
      statements stand inside `owner`, from position `offset` on. */
  ghost function WalkList(items: seq<Stmt>, n: nat, owner: Stmt, prefix: Address, offset: nat, scopes: seq<Scope>): seq<Found>
    requires n <= |items| && AllInside(items, owner)
    decreases owner, n
  {
    if n == 0 then []
    else
      var s, here := items[n - 1], prefix + [offset + n - 1];
      WalkList(items, n - 1, owner, prefix, offset, scopes) + WalkOne(s, here, scopes, owner)
  }

  ghost function WalkOne(s: Stmt, here: Address, scopes: seq<Scope>, owner: Stmt): seq<Found>
    requires Inside(s, owner)
    decreases owner, 0, 0
  {
    (if IsDefinition(s) then [Found(here, s, scopes)] else []) + WalkList(Nested(s), |Nested(s)|, s, here, 0, scopes + ScopeOf(s))
  }

  ghost function Walk(root: Stmt): seq<Found> {
    WalkList(Nested(root), |Nested(root)|, root, [], 0, ScopeOf(root))
  }

  /** `f` is a definition below `s`, at the right place and with the right surroundings. */
  ghost predicate IsPlaced(s: Stmt, prefix: Address, outer: seq<Scope>, f: Found) {
    exists q: Address :: q != [] && f.address == prefix + q && At(s, q) == Some(f.stmt)
                         && IsDefinition(f.stmt) && f.scopes == outer + ScopesAt(s, q)
  }

  lemma ChildIsPlaced(s: Stmt, k: nat, prefix: Address, outer: seq<Scope>)
    requires k < |Nested(s)| && IsDefinition(Nested(s)[k])
    ensures IsPlaced(s, prefix, outer, Found(prefix + [k], Nested(s)[k], outer + ScopeOf(s)))
  {
    var child := Nested(s)[k];
    OneStepDown(s, k, []);
    assert [k] + [] == [k];
    assert At(child, []) == Some(child) && ScopesAt(child, []) == [];
    hide Nested, At, ScopesAt;
    assert outer + ScopesAt(s, [k]) == outer + ScopeOf(s);
  }

  lemma BelowChildIsPlaced(s: Stmt, k: nat, prefix: Address, outer: seq<Scope>, f: Found)
    requires k < |Nested(s)| && IsPlaced(Nested(s)[k], prefix + [k], outer + ScopeOf(s), f)
    ensures IsPlaced(s, prefix, outer, f)
  {
    hide Nested, At, ScopesAt, ScopeOf;
    var child := Nested(s)[k];
    var q: Address :| q != [] && f.address == (prefix + [k]) + q && At(child, q) == Some(f.stmt)
                      && IsDefinition(f.stmt) && f.scopes == (outer + ScopeOf(s)) + ScopesAt(child, q);
    OneStepDown(s, k, q);
    assert f.address == prefix + ([k] + q);
    assert f.scopes == outer + ScopesAt(s, [k] + q);
  }

  /** Whatever the walk finds is a definition of the tree, at its place, in its scopes. */
  lemma {:induction false} FoundIsPlaced(s: Stmt, n: nat, prefix: Address, outer: seq<Scope>, f: Found)
    requires n <= |Nested(s)| && f in WalkList(Nested(s), n, s, prefix, 0, outer + ScopeOf(s))
    ensures IsPlaced(s, prefix, outer, f)
    decreases s, n
  {
    hide WalkList, WalkOne, Nested, ScopeOf, IsPlaced;
    var scopes := outer + ScopeOf(s);
    if n == 0 {
      WalkNone(Nested(s), s, prefix, 0, scopes);
    } else {
      WalkStep(Nested(s), n, s, prefix, 0, scopes);
      if f in WalkList(Nested(s), n - 1, s, prefix, 0, scopes) {
        FoundIsPlaced(s, n - 1, prefix, outer, f);
      } else {
        var child, here := Nested(s)[n - 1], prefix + [n - 1];
        assert prefix + [0 + n - 1] == here && f in WalkOne(child, here, scopes, s);
        WalkOneSplits(child, here, scopes, s, f);
        if IsDefinition(child) && f == Found(here, child, scopes) {
          ChildIsPlaced(s, n - 1, prefix, outer);
        } else {
          FoundIsPlaced(child, |Nested(child)|, here, scopes, f);
          BelowChildIsPlaced(s, n - 1, prefix, outer, f);
        }
      }
    }
  }

  lemma WalkOneSplits(s: Stmt, here: Address, scopes: seq<Scope>, owner: Stmt, f: Found)
    requires Inside(s, owner) && f in WalkOne(s, here, scopes, owner)
    ensures (IsDefinition(s) && f == Found(here, s, scopes))
            || f in WalkList(Nested(s), |Nested(s)|, s, here, 0, scopes + ScopeOf(s))
  {
    hide WalkList, Nested, ScopeOf;
  }

  lemma WalkNone(items: seq<Stmt>, owner: Stmt, prefix: Address, offset: nat, scopes: seq<Scope>)
    requires AllInside(items, owner)
    ensures WalkList(items, 0, owner, prefix, offset, scopes) == []
  {
    hide WalkOne;
  }

  lemma WalkStep(items: seq<Stmt>, n: nat, owner: Stmt, prefix: Address, offset: nat, scopes: seq<Scope>)
    requires 0 < n <= |items| && AllInside(items, owner)
    ensures WalkList(items, n, owner, prefix, offset, scopes)
            == WalkList(items, n - 1, owner, prefix, offset, scopes)
               + WalkOne(items[n - 1], prefix + [offset + n - 1], scopes, owner)
  {
    hide WalkOne;
  }

  lemma {:induction false} WalkGrows(
    items: seq<Stmt>, i: nat, n: nat, owner: Stmt, prefix: Address, offset: nat, scopes: seq<Scope>, f: Found)
    requires i <= n <= |items| && AllInside(items, owner)
    requires f in WalkList(items, i, owner, prefix, offset, scopes)
    ensures f in WalkList(items, n, owner, prefix, offset, scopes)
  {
    hide WalkList, WalkOne;
    if i < n {
      WalkGrows(items, i, n - 1, owner, prefix, offset, scopes, f);
      WalkStep(items, n, owner, prefix, offset, scopes);
    }
  }

  lemma WalkHasOne(s: Stmt, k: nat, prefix: Address, scopes: seq<Scope>, f: Found)
    requires k < |Nested(s)| && f in WalkOne(Nested(s)[k], prefix + [k], scopes, s)
    ensures f in WalkList(Nested(s), |Nested(s)|, s, prefix, 0, scopes)
  {
    hide WalkList, WalkOne, Nested, ScopeOf;
    WalkStep(Nested(s), k + 1, s, prefix, 0, scopes);
    assert prefix + [0 + (k + 1) - 1] == prefix + [k];
    WalkGrows(Nested(s), k + 1, |Nested(s)|, s, prefix, 0, scopes, f);
  }

  /** And the walk misses no definition, however deep and through whatever blocks. */
  lemma {:induction false} PlacedIsFound(s: Stmt, q: Address, prefix: Address, outer: seq<Scope>)
    requires q != [] && At(s, q).Some? && IsDefinition(At(s, q).value)
    ensures Found(prefix + q, At(s, q).value, outer + ScopesAt(s, q))
            in WalkList(Nested(s), |Nested(s)|, s, prefix, 0, outer + ScopeOf(s))
    decreases q
  {
    hide WalkOne, WalkList, Nested, At, ScopesAt, ScopeOf;
    FirstStep(s, q);
    var k, below, scopes := q[0], q[1..], outer + ScopeOf(s);
    var child := Nested(s)[k];
    var f := Found(prefix + q, At(s, q).value, outer + ScopesAt(s, q));
    assert outer + ScopesAt(s, q) == scopes + ScopesAt(child, below);
    assert prefix + q == (prefix + [k]) + below;
    if below == [] {
      NoStep(child);
      assert f == Found(prefix + [k], child, scopes);
    } else {
      PlacedIsFound(child, below, prefix + [k], scopes);
    }
    FoundInOne(child, prefix + [k], scopes, s, f, below);
    WalkHasOne(s, k, prefix, scopes, f);
  }

  lemma FoundInOne(s: Stmt, here: Address, scopes: seq<Scope>, owner: Stmt, f: Found, below: Address)
    requires Inside(s, owner)
    requires if below == [] then IsDefinition(s) && f == Found(here, s, scopes)
             else f in WalkList(Nested(s), |Nested(s)|, s, here, 0, scopes + ScopeOf(s))
    ensures f in WalkOne(s, here, scopes, owner)
  {
    hide WalkList;
  }

  // ---------------------------------------------------------------------------
  // Exactly once.
  // ---------------------------------------------------------------------------

  ghost predicate DistinctPlaces(found: seq<Found>) {
    forall i, j :: 0 <= i < j < |found| ==> found[i].address != found[j].address
  }

  /** Every address found among the first `n` statements begins with one of their places. */
  ghost predicate Below(found: seq<Found>, prefix: Address, low: nat, high: nat) {
    forall i :: 0 <= i < |found| ==>
      |found[i].address| > |prefix| && found[i].address[..|prefix|] == prefix && low <= found[i].address[|prefix|] < high
  }

  lemma {:induction false} PlacesAreDistinct(items: seq<Stmt>, n: nat, owner: Stmt, prefix: Address, offset: nat, scopes: seq<Scope>)
    requires n <= |items| && AllInside(items, owner)
    ensures var found := WalkList(items, n, owner, prefix, offset, scopes);
            DistinctPlaces(found) && Below(found, prefix, offset, offset + n)
    decreases owner, n
  {
    hide WalkList, WalkOne, Nested, ScopeOf;
    if n == 0 {
      WalkNone(items, owner, prefix, offset, scopes);
    } else {
      hide DistinctPlaces, Below;
      var s, here, k := items[n - 1], prefix + [offset + n - 1], offset + n - 1;
      WalkStep(items, n, owner, prefix, offset, scopes);
      PlacesAreDistinct(items, n - 1, owner, prefix, offset, scopes);
      PlacesAreDistinct(Nested(s), |Nested(s)|, s, here, 0, scopes + ScopeOf(s));
      OneIsBelow(s, here, scopes, owner, prefix, k);
      BothDistinct(WalkList(items, n - 1, owner, prefix, offset, scopes), WalkOne(s, here, scopes, owner), prefix, offset, k);
    }
  }

  lemma BothDistinct(a: seq<Found>, b: seq<Found>, prefix: Address, low: nat, k: nat)
    requires DistinctPlaces(a) && Below(a, prefix, low, k) && DistinctPlaces(b) && Below(b, prefix, k, k + 1) && low <= k
    ensures DistinctPlaces(a + b) && Below(a + b, prefix, low, k + 1)
  {
  }

  lemma OneIsBelow(s: Stmt, here: Address, scopes: seq<Scope>, owner: Stmt, prefix: Address, k: nat)
    requires Inside(s, owner) && here == prefix + [k]
    requires var inner := WalkList(Nested(s), |Nested(s)|, s, here, 0, scopes + ScopeOf(s));
             DistinctPlaces(inner) && Below(inner, here, 0, |Nested(s)|)
    ensures DistinctPlaces(WalkOne(s, here, scopes, owner)) && Below(WalkOne(s, here, scopes, owner), prefix, k, k + 1)
  {
    var inner := WalkList(Nested(s), |Nested(s)|, s, here, 0, scopes + ScopeOf(s));
    hide WalkList, Nested, ScopeOf;
    InnerIsBelow(inner, here, |Nested(s)|, prefix, k);
  }

  lemma InnerIsBelow(inner: seq<Found>, here: Address, high: nat, prefix: Address, k: nat)
    requires here == prefix + [k] && Below(inner, here, 0, high)
    ensures forall i :: 0 <= i < |inner| ==> |inner[i].address| > |here| && inner[i].address[..|prefix|] == prefix
                                             && inner[i].address[|prefix|] == k
  {
    forall i | 0 <= i < |inner|
      ensures |inner[i].address| > |here| && inner[i].address[..|prefix|] == prefix && inner[i].address[|prefix|] == k
    {
      assert inner[i].address[..|here|] == here;
      assert inner[i].address[..|prefix|] == here[..|prefix|];
      assert inner[i].address[|prefix|] == here[|prefix|];
    }
  }

  /** Every definition of a module, at every depth and through every block, is found exactly
      once, with the definitions around it. */
  lemma EveryDefinitionIsFoundOnce(root: Stmt)
    requires root.Block?
    ensures DistinctPlaces(Walk(root))
    ensures forall f: Found :: f in Walk(root) <==>
              f.address != [] && At(root, f.address) == Some(f.stmt) && IsDefinition(f.stmt) && f.scopes == ScopesAt(root, f.address)
  {
    PlacesAreDistinct(Nested(root), |Nested(root)|, root, [], 0, ScopeOf(root));
    assert [] + ScopeOf(root) == ScopeOf(root);
    forall f: Found | f in Walk(root)
      ensures f.address != [] && At(root, f.address) == Some(f.stmt) && IsDefinition(f.stmt)
              && f.scopes == ScopesAt(root, f.address)
    {
      FoundIsPlaced(root, |Nested(root)|, [], [], f);
      var q: Address :| q != [] && f.address == [] + q && At(root, q) == Some(f.stmt) && f.scopes == [] + ScopesAt(root, q);
      assert q == f.address && [] + ScopesAt(root, q) == ScopesAt(root, q);
    }
    forall f: Found | f.address != [] && At(root, f.address) == Some(f.stmt) && IsDefinition(f.stmt)
                      && f.scopes == ScopesAt(root, f.address)
      ensures f in Walk(root)
    {
      PlacedIsFound(root, f.address, [], []);
      assert [] + f.address == f.address && [] + ScopesAt(root, f.address) == ScopesAt(root, f.address);
    }
  }
}
