/** Whom a call is attributed to: the collector's two walks against one walk that carries the
    innermost callable down. */
module CallAttribution {
  import opened Options
  import opened DottedNames
  import opened SyntaxTrees
  import opened CallCollection
  import opened Definitions
  import opened DefinitionCollector

  // ---------------------------------------------------------------------------
  // Names.
  // ---------------------------------------------------------------------------

  function ScopeNames(home: string, scopes: seq<Scope>): seq<string> {
    if scopes == [] then (if home == "" then [] else [home])
    else ScopeNames(home, scopes[..|scopes| - 1]) + [scopes[|scopes| - 1].name]
  }

  predicate Identifiers(scopes: seq<Scope>) {
    forall i :: 0 <= i < |scopes| ==> scopes[i].name != ""
  }

  lemma JoinedLonger(parts: seq<string>, name: string)
    requires parts == [] <==> Join(parts) == ""
    ensures JoinQn(Join(parts), name) == Join(parts + [name])
  {
    if parts == [] {
      assert parts + [name] == [name];
    } else {
      assert (parts + [name])[..|parts|] == parts;
    }
  }

  lemma {:induction false} NamespaceIsTheScopePath(home: string, scopes: seq<Scope>)
    requires Identifiers(scopes)
    ensures Namespace(home, scopes) == Join(ScopeNames(home, scopes))
    ensures Join(ScopeNames(home, scopes)) == "" <==> ScopeNames(home, scopes) == []
  {
    if scopes != [] {
      var n := |scopes| - 1;
      NamespaceIsTheScopePath(home, scopes[..n]);
      JoinedLonger(ScopeNames(home, scopes[..n]), scopes[n].name);
    }
  }

  /** A recorded definition is named by the join of its scope path and its own name, and its
      parent by the scope path. */
  lemma RecordsAreNamedByTheirScopes(home: string, f: Found)
    requires IsDefinition(f.stmt) && Identifiers(f.scopes)
    ensures RecordOf(home, f).qualifiedName == Join(ScopeNames(home, f.scopes) + [f.stmt.name])
    ensures RecordOf(home, f).parent == Join(ScopeNames(home, f.scopes))
  {
    NamespaceIsTheScopePath(home, f.scopes);
    JoinedLonger(ScopeNames(home, f.scopes), f.stmt.name);
  }

  ghost predicate AllDefinitions(found: seq<Found>) {
    forall f :: f in found ==> IsDefinition(f.stmt)
  }

  /** Each list holds the records of its role, one per definition found, and no others. */
  lemma {:induction false} ListsHoldTheirRoles(home: string, found: seq<Found>, d: Definition)
    requires AllDefinitions(found)
    ensures var out := OutputOf(home, found);
            && |out.classes| + |out.functions| + |out.methods| == |found|
            && (d in out.classes <==> exists f :: f in found && RoleOf(f) == AsClass && RecordOf(home, f) == d)
            && (d in out.functions <==> exists f :: f in found && RoleOf(f) == AsFunction && RecordOf(home, f) == d)
            && (d in out.methods <==> exists f :: f in found && RoleOf(f) == AsMethod && RecordOf(home, f) == d)
  {
    hide RecordOf, RoleOf, BodyCalls, Tagged;
    if found != [] {
      var before, last := found[..|found| - 1], found[|found| - 1];
      assert last in found;
      ListsHoldTheirRoles(home, before, d);
      OneMoreFound(home, found, d);
      hide AllDefinitions;
      assert forall f :: f in found <==> f in before || f == last by {
        assert found == before + [last];
      }
    }
  }

  /** The last definition found adds its record to the list of its role. */
  lemma OneMoreFound(home: string, found: seq<Found>, d: Definition)
    requires AllDefinitions(found) && found != []
    ensures var before, last := OutputOf(home, found[..|found| - 1]), found[|found| - 1];
            var out := OutputOf(home, found);
            && |out.classes| + |out.functions| + |out.methods| == |before.classes| + |before.functions| + |before.methods| + 1
            && (d in out.classes <==> d in before.classes || (RoleOf(last) == AsClass && RecordOf(home, last) == d))
            && (d in out.functions <==> d in before.functions || (RoleOf(last) == AsFunction && RecordOf(home, last) == d))
            && (d in out.methods <==> d in before.methods || (RoleOf(last) == AsMethod && RecordOf(home, last) == d))
  {
    assert found[|found| - 1] in found;
    hide RecordOf, RoleOf, BodyCalls, Tagged;
  }

  // ---------------------------------------------------------------------------
  // The reference: one walk that knows the innermost callable.
  // ---------------------------------------------------------------------------

  type Attribution = (Address, string)

  function Tag(owner: Address, callees: seq<string>): (m: multiset<Attribution>)
    ensures |m| == |callees|
  {
    multiset(seq(|callees|, i requires 0 <= i < |callees| => (owner, callees[i])))
  }

  function ClauseHeads(clauses: seq<Clause>, n: nat): seq<string>
    requires n <= |clauses|
  {
    if n == 0 then [] else ClauseHeads(clauses, n - 1) + CallsOf(clauses[n - 1].heads)
  }

  /** The calls in a statement's own expressions; for a definition, those of its header. */
  function OwnCalls(s: Stmt): seq<string> {
    match s
    case FunctionDef(_, header, _) => CallsOf(header)
    case ClassDef(_, header, _) => CallsOf(header)
    case Simple(exprs) => CallsOf(exprs)
    case Block(heads, _, _, _, handlers, cases) =>
      CallsOf(heads) + ClauseHeads(handlers, |handlers|) + ClauseHeads(cases, |cases|)
  }

  /** The callable that owns the statements inside `s`, if any. */
  function OwnerBelow(s: Stmt, here: Address, owner: Option<Address>): Option<Address> {
    match s
    case FunctionDef(_, _, _) => Some(here)
    case ClassDef(_, _, _) => None
    case _ => owner
  }

  function Attributed(s: Stmt, n: nat, prefix: Address, owner: Option<Address>): multiset<Attribution>
    requires n <= |Nested(s)|
    decreases s, n
  {
    if n == 0 then multiset{}
    else
      var child, here := Nested(s)[n - 1], prefix + [n - 1];
      assert Inside(child, s);
      Attributed(s, n - 1, prefix, owner)
      + (if owner.Some? && !IsDefinition(child) then Tag(owner.value, OwnCalls(child)) else multiset{})
      + Attributed(child, |Nested(child)|, here, OwnerBelow(child, here, owner))
  }

  /** What the collector records, with the place of the callable in the caller's stead. */
  ghost function Recorded(found: seq<Found>): multiset<Attribution> {
    if found == [] then multiset{}
    else
      var f := found[|found| - 1];
      Recorded(found[..|found| - 1]) + if f.stmt.FunctionDef? then Tag(f.address, BodyCalls(f.stmt)) else multiset{}
  }

  // ---------------------------------------------------------------------------
  // Sums.
  // ---------------------------------------------------------------------------

  lemma TagOfBoth(owner: Address, a: seq<string>, b: seq<string>)
    ensures Tag(owner, a + b) == Tag(owner, a) + Tag(owner, b)
  {
    var ta := seq(|a|, i requires 0 <= i < |a| => (owner, a[i]));
    var tb := seq(|b|, i requires 0 <= i < |b| => (owner, b[i]));
    var t := seq(|a + b|, i requires 0 <= i < |a + b| => (owner, (a + b)[i]));
    assert t == ta + tb;
  }

  lemma {:induction false} RecordedOfBoth(a: seq<Found>, b: seq<Found>)
    ensures Recorded(a + b) == Recorded(a) + Recorded(b)
  {
    hide BodyCalls, Tag;
    if b == [] {
      assert a + b == a;
    } else {
      assert (a + b)[..|a + b| - 1] == a + b[..|b| - 1];
      RecordedOfBoth(a, b[..|b| - 1]);
    }
  }

  lemma {:induction false} CallsOfBothLists(a: seq<Stmt>, b: seq<Stmt>, k: nat, owner: Stmt)
    requires AllInside(a, owner) && AllInside(b, owner) && AllInside(a + b, owner) && k <= |b|
    ensures CallsInList(a + b, |a| + k, owner) == CallsInList(a, |a|, owner) + CallsInList(b, k, owner)
  {
    hide CallsInStmt, CallsInList;
    if k == 0 {
      CallsOfLonger(a, b, |a|, owner);
      NoneYet(b, owner);
    } else {
      CallsOfBothLists(a, b, k - 1, owner);
      assert (a + b)[|a| + k - 1] == b[k - 1];
      NextStatement(a + b, |a| + k, owner);
      NextStatement(b, k, owner);
    }
  }

  lemma {:induction false} CallsOfLonger(a: seq<Stmt>, b: seq<Stmt>, k: nat, owner: Stmt)
    requires AllInside(a, owner) && AllInside(a + b, owner) && k <= |a|
    ensures CallsInList(a + b, k, owner) == CallsInList(a, k, owner)
  {
    hide CallsInStmt, CallsInList;
    if k == 0 {
      NoneYet(a, owner);
      NoneYet(a + b, owner);
    } else {
      CallsOfLonger(a, b, k - 1, owner);
      assert (a + b)[k - 1] == a[k - 1];
      NextStatement(a + b, k, owner);
      NextStatement(a, k, owner);
    }
  }

  lemma NextStatement(items: seq<Stmt>, n: nat, owner: Stmt)
    requires 0 < n <= |items| && AllInside(items, owner)
    ensures CallsInList(items, n, owner) == CallsInList(items, n - 1, owner) + CallsInStmt(items[n - 1], owner)
  {
    hide CallsInStmt;
  }

  lemma NoneYet(items: seq<Stmt>, owner: Stmt)
    requires AllInside(items, owner)
    ensures CallsInList(items, 0, owner) == []
  {
    hide CallsInStmt;
  }

  lemma NoCalls(owner: Stmt)
    ensures CallsInList([], 0, owner) == []
  {
  }

  /** The calls in the statement lists of a block, list by list. */
  ghost function CallsInBodies(s: Stmt, n: nat): multiset<string>
    requires n <= |Bodies(s)|
  {
    if n == 0 then multiset{}
    else
      BodyIsAStretch(s, n - 1);
      CallsInBodies(s, n - 1) + multiset(CallsInList(Bodies(s)[n - 1], |Bodies(s)[n - 1]|, s))
  }

  lemma {:induction false} NestedCallsAreThoseOfTheBodies(s: Stmt, n: nat)
    requires n <= |Bodies(s)|
    ensures AllInside(Flat(Bodies(s), n), s)
    ensures multiset(CallsInList(Flat(Bodies(s), n), |Flat(Bodies(s), n)|, s)) == CallsInBodies(s, n)
  {
    hide CallsInList, Bodies;
    FlatIsInside(s, n);
    if n == 0 {
      NoCalls(s);
    } else {
      NestedCallsAreThoseOfTheBodies(s, n - 1);
      BodyIsAStretch(s, n - 1);
      var a, b := Flat(Bodies(s), n - 1), Bodies(s)[n - 1];
      CallsOfBothLists(a, b, |b|, s);
    }
  }

  /** The same over the lists of some clauses, which stand from position `from` on. */
  lemma {:induction false} ClauseCallsSplit(s: Stmt, clauses: seq<Clause>, from: nat, n: nat)
    requires n <= |clauses| && from + |clauses| <= |Bodies(s)|
    requires forall k :: 0 <= k < |clauses| ==> Bodies(s)[from + k] == clauses[k].body
    requires forall k :: 0 <= k < |clauses| ==> AllInside(clauses[k].body, s)
    ensures multiset(CallsInClauses(clauses, n, s)) + CallsInBodies(s, from)
            == multiset(ClauseHeads(clauses, n)) + CallsInBodies(s, from + n)
  {
    hide CallsInList, CallsInClauses, CallsInBodies, ClauseHeads, CallsOf, Bodies;
    if n == 0 {
      NoClause(clauses, s);
    } else {
      ClauseCallsSplit(s, clauses, from, n - 1);
      assert Bodies(s)[from + (n - 1)] == clauses[n - 1].body;
      NextBody(s, from + (n - 1));
      NextClause(clauses, n, s);
      var body := clauses[n - 1].body;
      OneMoreClause(multiset(CallsInClauses(clauses, n - 1, s)), CallsInBodies(s, from), multiset(ClauseHeads(clauses, n - 1)),
                    CallsInBodies(s, from + (n - 1)), multiset(CallsOf(clauses[n - 1].heads)), multiset(CallsInList(body, |body|, s)));
    }
  }

  lemma NextClause(clauses: seq<Clause>, n: nat, owner: Stmt)
    requires 0 < n <= |clauses| && forall k :: 0 <= k < |clauses| ==> AllInside(clauses[k].body, owner)
    ensures multiset(CallsInClauses(clauses, n, owner))
            == multiset(CallsInClauses(clauses, n - 1, owner)) + multiset(CallsOf(clauses[n - 1].heads))
               + multiset(CallsInList(clauses[n - 1].body, |clauses[n - 1].body|, owner))
    ensures multiset(ClauseHeads(clauses, n)) == multiset(ClauseHeads(clauses, n - 1)) + multiset(CallsOf(clauses[n - 1].heads))
  {
    hide CallsInList, CallsOf;
  }

  lemma NoClause(clauses: seq<Clause>, owner: Stmt)
    requires forall k :: 0 <= k < |clauses| ==> AllInside(clauses[k].body, owner)
    ensures CallsInClauses(clauses, 0, owner) == [] && ClauseHeads(clauses, 0) == []
  {
  }

  lemma NextBody(s: Stmt, n: nat)
    requires n < |Bodies(s)| && AllInside(Bodies(s)[n], s)
    ensures CallsInBodies(s, n + 1) == CallsInBodies(s, n) + multiset(CallsInList(Bodies(s)[n], |Bodies(s)[n]|, s))
  {
  }

  lemma OneMoreClause(clauses: multiset<string>, from: multiset<string>, heads: multiset<string>, bodies: multiset<string>,
                      moreHeads: multiset<string>, more: multiset<string>)
    requires clauses + from == heads + bodies
    ensures clauses + moreHeads + more + from == heads + moreHeads + (bodies + more)
  {
    assert clauses + moreHeads + more + from == clauses + from + moreHeads + more;
  }

  lemma ListsOfBlock(s: Stmt)
    requires s.Block?
    ensures |Bodies(s)| == 3 + |s.handlers| + |s.cases|
    ensures Bodies(s)[0] == s.body && Bodies(s)[1] == s.orelse && Bodies(s)[2] == s.finalbody
    ensures forall k :: 0 <= k < |s.handlers| ==> Bodies(s)[3 + k] == s.handlers[k].body
    ensures forall k :: 0 <= k < |s.cases| ==> Bodies(s)[3 + |s.handlers| + k] == s.cases[k].body
  {
  }

  /** A block's calls, in whatever order: its own and those of the statements inside it. */
  lemma BlockCallsSplit(s: Stmt)
    requires s.Block?
    ensures multiset(CallsInBlock(s)) == multiset(OwnCalls(s)) + multiset(CallsInList(Nested(s), |Nested(s)|, s))
  {
    hide CallsInList, CallsInClauses, CallsOf, ClauseHeads, Bodies, CallsInBlock, OwnCalls, Nested;
    PartsOfBlock(s);
    var h, c := |s.handlers|, |s.cases|;
    BlockIsSixParts(s);
    ListsOfBlock(s);
    FirstThreeBodies(s);
    HandlersSplit(s);
    CasesSplit(s);
    NestedIsAllBodies(s);
    BlockSums(multiset(CallsOf(s.heads)), multiset(CallsInList(s.body, |s.body|, s)), multiset(CallsInList(s.orelse, |s.orelse|, s)),
              multiset(CallsInList(s.finalbody, |s.finalbody|, s)),
              multiset(CallsInClauses(s.handlers, h, s)), multiset(CallsInClauses(s.cases, c, s)),
              multiset(ClauseHeads(s.handlers, h)), multiset(ClauseHeads(s.cases, c)),
              CallsInBodies(s, 3), CallsInBodies(s, 3 + h), CallsInBodies(s, 3 + h + c));
  }

  lemma BlockIsSixParts(s: Stmt)
    requires s.Block?
    ensures AllInside(s.body, s) && AllInside(s.orelse, s) && AllInside(s.finalbody, s)
    ensures forall k :: 0 <= k < |s.handlers| ==> AllInside(s.handlers[k].body, s)
    ensures forall k :: 0 <= k < |s.cases| ==> AllInside(s.cases[k].body, s)
    ensures multiset(CallsInBlock(s))
            == multiset(CallsOf(s.heads)) + multiset(CallsInList(s.body, |s.body|, s))
               + multiset(CallsInClauses(s.handlers, |s.handlers|, s)) + multiset(CallsInList(s.orelse, |s.orelse|, s))
               + multiset(CallsInList(s.finalbody, |s.finalbody|, s)) + multiset(CallsInClauses(s.cases, |s.cases|, s))
    ensures multiset(OwnCalls(s)) == multiset(CallsOf(s.heads)) + multiset(ClauseHeads(s.handlers, |s.handlers|))
                                     + multiset(ClauseHeads(s.cases, |s.cases|))
  {
    PartsOfBlock(s);
    hide CallsInList, CallsInClauses, CallsOf, ClauseHeads, Bodies, AllInside;
  }

  lemma FirstThreeBodies(s: Stmt)
    requires s.Block? && |Bodies(s)| >= 3
    ensures AllInside(s.body, s) && AllInside(s.orelse, s) && AllInside(s.finalbody, s)
    ensures CallsInBodies(s, 3) == multiset(CallsInList(s.body, |s.body|, s)) + multiset(CallsInList(s.orelse, |s.orelse|, s))
                                   + multiset(CallsInList(s.finalbody, |s.finalbody|, s))
  {
    PartsOfBlock(s);
    ListsOfBlock(s);
    hide CallsInList, Bodies, AllInside;
    NextBody(s, 0);
    NextBody(s, 1);
    NextBody(s, 2);
    assert CallsInBodies(s, 0) == multiset{};
    hide CallsInBodies;
  }

  lemma NestedIsAllBodies(s: Stmt)
    ensures multiset(CallsInList(Nested(s), |Nested(s)|, s)) == CallsInBodies(s, |Bodies(s)|)
  {
    NestedCallsAreThoseOfTheBodies(s, |Bodies(s)|);
    hide CallsInList, CallsInBodies;
  }

  lemma HandlersSplit(s: Stmt)
    requires s.Block? && |Bodies(s)| == 3 + |s.handlers| + |s.cases|
    ensures forall k :: 0 <= k < |s.handlers| ==> AllInside(s.handlers[k].body, s)
    ensures multiset(CallsInClauses(s.handlers, |s.handlers|, s)) + CallsInBodies(s, 3)
            == multiset(ClauseHeads(s.handlers, |s.handlers|)) + CallsInBodies(s, 3 + |s.handlers|)
  {
    hide *;
    PartsOfBlock(s);
    ListsOfBlock(s);
    ClauseCallsSplit(s, s.handlers, 3, |s.handlers|);
  }

  lemma CasesSplit(s: Stmt)
    requires s.Block? && |Bodies(s)| == 3 + |s.handlers| + |s.cases|
    ensures forall k :: 0 <= k < |s.cases| ==> AllInside(s.cases[k].body, s)
    ensures multiset(CallsInClauses(s.cases, |s.cases|, s)) + CallsInBodies(s, 3 + |s.handlers|)
            == multiset(ClauseHeads(s.cases, |s.cases|)) + CallsInBodies(s, 3 + |s.handlers| + |s.cases|)
  {
    hide *;
    PartsOfBlock(s);
    ListsOfBlock(s);
    ClauseCallsSplit(s, s.cases, 3 + |s.handlers|, |s.cases|);
  }

  lemma BlockSums(heads: multiset<string>, body: multiset<string>, orelse: multiset<string>, finalbody: multiset<string>,
                  handlers: multiset<string>, cases: multiset<string>, handlerHeads: multiset<string>, caseHeads: multiset<string>,
                  three: multiset<string>, withHandlers: multiset<string>, all: multiset<string>)
    requires three == body + orelse + finalbody
    requires handlers + three == handlerHeads + withHandlers && cases + withHandlers == caseHeads + all
    ensures heads + body + handlers + orelse + finalbody + cases == heads + handlerHeads + caseHeads + all
  {
    forall x ensures (heads + body + handlers + orelse + finalbody + cases)[x] == (heads + handlerHeads + caseHeads + all)[x] {
      assert (handlers + three)[x] == (handlerHeads + withHandlers)[x];
      assert (cases + withHandlers)[x] == (caseHeads + all)[x];
    }
  }

  // ---------------------------------------------------------------------------
  // Each call goes to its innermost callable.
  // ---------------------------------------------------------------------------

  function TagIf(owner: Option<Address>, callees: seq<string>): multiset<Attribution> {
    if owner.Some? then Tag(owner.value, callees) else multiset{}
  }

  lemma TagOfSame(owner: Option<Address>, a: seq<string>, b: seq<string>, c: seq<string>)
    requires multiset(a) == multiset(b) + multiset(c)
    ensures TagIf(owner, a) == TagIf(owner, b) + TagIf(owner, c)
  {
    if owner.Some? {
      forall x ensures Tag(owner.value, a)[x] == (Tag(owner.value, b) + Tag(owner.value, c))[x] {
        TagCounts(owner.value, a, x);
        TagCounts(owner.value, b, x);
        TagCounts(owner.value, c, x);
      }
    }
  }

  lemma {:induction false} TagCounts(owner: Address, callees: seq<string>, x: Attribution)
    ensures Tag(owner, callees)[x] == if x.0 == owner then multiset(callees)[x.1] else 0
  {
    if callees == [] {
      assert Tag(owner, callees) == multiset{};
    } else {
      var before, last := callees[..|callees| - 1], callees[|callees| - 1];
      assert callees == before + [last];
      TagCounts(owner, before, x);
      TagOfBoth(owner, before, [last]);
      assert Tag(owner, [last]) == multiset{(owner, last)} by {
        assert seq(1, i requires 0 <= i < 1 => (owner, [last][i])) == [(owner, last)];
      }
      hide Tag;
    }
  }

  /** What a child of `s` contributes on either side, given the claim for what is inside it. */
  ghost predicate Agrees(s: Stmt, n: nat, prefix: Address, owner: Option<Address>, scopes: seq<Scope>)
    requires n <= |Nested(s)|
  {
    Attributed(s, n, prefix, owner)
    == Recorded(WalkList(Nested(s), n, s, prefix, 0, scopes)) + TagIf(owner, CallsInList(Nested(s), n, s))
  }

  lemma DefinitionAgrees(child: Stmt, here: Address, owner: Option<Address>, scopes: seq<Scope>, around: Stmt)
    requires Inside(child, around) && IsDefinition(child)
    requires Agrees(child, |Nested(child)|, here, OwnerBelow(child, here, owner), scopes + ScopeOf(child))
    ensures Attributed(child, |Nested(child)|, here, OwnerBelow(child, here, owner)) == Recorded(WalkOne(child, here, scopes, around))
  {
    var inner := WalkList(Nested(child), |Nested(child)|, child, here, 0, scopes + ScopeOf(child));
    var f := Found(here, child, scopes);
    assert WalkOne(child, here, scopes, around) == [f] + inner by {
      hide WalkList, Nested;
    }
    RecordedOfBoth([f], inner);
    RecordedOfSingle(f);
    NestedOfDefinition(child);
    hide Attributed, WalkList, WalkOne, Recorded, Nested, Tag, CallsInList, ScopeOf;
  }

  lemma BlockAgrees(child: Stmt, here: Address, owner: Option<Address>, scopes: seq<Scope>, around: Stmt)
    requires Inside(child, around) && child.Block?
    requires Agrees(child, |Nested(child)|, here, owner, scopes + ScopeOf(child))
    ensures TagIf(owner, OwnCalls(child)) + Attributed(child, |Nested(child)|, here, owner)
            == Recorded(WalkOne(child, here, scopes, around)) + TagIf(owner, CallsInBlock(child))
  {
    hide Attributed, WalkList, Recorded, Nested, TagIf, CallsInList, CallsInBlock, OwnCalls;
    var inner := WalkList(Nested(child), |Nested(child)|, child, here, 0, scopes + ScopeOf(child));
    assert WalkOne(child, here, scopes, around) == inner;
    BlockCallsSplit(child);
    TagOfSame(owner, CallsInBlock(child), OwnCalls(child), CallsInList(Nested(child), |Nested(child)|, child));
    hide WalkOne, ScopeOf;
  }

  lemma SimpleAgrees(child: Stmt, here: Address, owner: Option<Address>, scopes: seq<Scope>, around: Stmt)
    requires Inside(child, around) && child.Simple?
    ensures TagIf(owner, OwnCalls(child)) + Attributed(child, |Nested(child)|, here, owner)
            == Recorded(WalkOne(child, here, scopes, around)) + TagIf(owner, CallsInStmt(child, around))
  {
    NothingInside(child, here, scopes, around);
    assert Bodies(child) == [] && Nested(child) == [];
    hide WalkOne, WalkList, Nested, TagIf, CallsOf;
  }

  lemma ChildAgrees(child: Stmt, here: Address, owner: Option<Address>, scopes: seq<Scope>, around: Stmt)
    requires Inside(child, around)
    requires Agrees(child, |Nested(child)|, here, OwnerBelow(child, here, owner), scopes + ScopeOf(child))
    ensures (if owner.Some? && !IsDefinition(child) then Tag(owner.value, OwnCalls(child)) else multiset{})
            + Attributed(child, |Nested(child)|, here, OwnerBelow(child, here, owner))
            == Recorded(WalkOne(child, here, scopes, around)) + TagIf(owner, CallsInStmt(child, around))
  {
    hide Attributed, WalkList, WalkOne, Recorded, Nested, Tag, CallsInList, CallsInBlock, CallsOf, ScopeOf, OwnCalls, Agrees;
    if IsDefinition(child) {
      DefinitionAgrees(child, here, owner, scopes, around);
      NothingTagged(owner);
    } else if child.Block? {
      BlockAgrees(child, here, owner, scopes, around);
    } else {
      SimpleAgrees(child, here, owner, scopes, around);
    }
  }

  lemma NothingTagged(owner: Option<Address>)
    ensures TagIf(owner, []) == multiset{}
  {
  }

  lemma RecordedOfSingle(f: Found)
    ensures Recorded([f]) == if f.stmt.FunctionDef? then Tag(f.address, BodyCalls(f.stmt)) else multiset{}
  {
    assert [f][..0] == [];
    hide Tag, BodyCalls;
  }

  lemma OneMoreAttributed(s: Stmt, n: nat, prefix: Address, owner: Option<Address>)
    requires 0 < n <= |Nested(s)| && Inside(Nested(s)[n - 1], s)
    ensures var child, here := Nested(s)[n - 1], prefix + [n - 1];
            Attributed(s, n, prefix, owner)
            == Attributed(s, n - 1, prefix, owner)
               + ((if owner.Some? && !IsDefinition(child) then Tag(owner.value, OwnCalls(child)) else multiset{})
                  + Attributed(child, |Nested(child)|, here, OwnerBelow(child, here, owner)))
  {
    hide Nested, OwnCalls, Tag, OwnerBelow;
  }

  lemma OneMoreWalked(s: Stmt, n: nat, prefix: Address, scopes: seq<Scope>)
    requires 0 < n <= |Nested(s)| && Inside(Nested(s)[n - 1], s)
    ensures var child, here := Nested(s)[n - 1], prefix + [n - 1];
            Recorded(WalkList(Nested(s), n, s, prefix, 0, scopes))
            == Recorded(WalkList(Nested(s), n - 1, s, prefix, 0, scopes)) + Recorded(WalkOne(child, here, scopes, s))
  {
    var child, here := Nested(s)[n - 1], prefix + [n - 1];
    hide WalkList, WalkOne, Recorded, Nested;
    WalkStep(Nested(s), n, s, prefix, 0, scopes);
    assert prefix + [0 + n - 1] == here;
    RecordedOfBoth(WalkList(Nested(s), n - 1, s, prefix, 0, scopes), WalkOne(child, here, scopes, s));
  }

  /** One child more, on both sides. */
  lemma OneMoreChild(s: Stmt, n: nat, prefix: Address, owner: Option<Address>, scopes: seq<Scope>)
    requires 0 < n <= |Nested(s)| && Inside(Nested(s)[n - 1], s)
    ensures var child, here := Nested(s)[n - 1], prefix + [n - 1];
            Attributed(s, n, prefix, owner)
            == Attributed(s, n - 1, prefix, owner)
               + ((if owner.Some? && !IsDefinition(child) then Tag(owner.value, OwnCalls(child)) else multiset{})
                  + Attributed(child, |Nested(child)|, here, OwnerBelow(child, here, owner)))
    ensures var child, here := Nested(s)[n - 1], prefix + [n - 1];
            Recorded(WalkList(Nested(s), n, s, prefix, 0, scopes))
            == Recorded(WalkList(Nested(s), n - 1, s, prefix, 0, scopes)) + Recorded(WalkOne(child, here, scopes, s))
  {
    hide Attributed, WalkList, WalkOne, Recorded, Nested, OwnCalls, Tag, OwnerBelow;
    OneMoreAttributed(s, n, prefix, owner);
    OneMoreWalked(s, n, prefix, scopes);
  }

  lemma OneMoreOwn(s: Stmt, n: nat, owner: Option<Address>)
    requires 0 < n <= |Nested(s)| && Inside(Nested(s)[n - 1], s)
    ensures TagIf(owner, CallsInList(Nested(s), n, s))
            == TagIf(owner, CallsInList(Nested(s), n - 1, s)) + TagIf(owner, CallsInStmt(Nested(s)[n - 1], s))
  {
    hide Nested, CallsInStmt, Tag;
    if owner.Some? {
      TagOfBoth(owner.value, CallsInList(Nested(s), n - 1, s), CallsInStmt(Nested(s)[n - 1], s));
    }
  }

  lemma SumsAgree(a: multiset<Attribution>, b: multiset<Attribution>, r: multiset<Attribution>, t: multiset<Attribution>,
                  moreR: multiset<Attribution>, moreT: multiset<Attribution>)
    requires a == r + t && b == moreR + moreT
    ensures a + b == (r + moreR) + (t + moreT)
  {
  }

  lemma NothingAgrees(s: Stmt, prefix: Address, owner: Option<Address>, scopes: seq<Scope>)
    ensures Agrees(s, 0, prefix, owner, scopes)
  {
    hide WalkOne, Nested, CallsInStmt, OwnCalls;
    WalkNone(Nested(s), s, prefix, 0, scopes);
    NoneYet(Nested(s), s);
    NothingTagged(owner);
    assert Recorded([]) == multiset{};
    hide WalkList, TagIf, CallsInList;
  }

  lemma OneMoreAgrees(s: Stmt, n: nat, prefix: Address, owner: Option<Address>, scopes: seq<Scope>)
    requires 0 < n <= |Nested(s)| && Inside(Nested(s)[n - 1], s) && Agrees(s, n - 1, prefix, owner, scopes)
    requires var child, here := Nested(s)[n - 1], prefix + [n - 1];
             Agrees(child, |Nested(child)|, here, OwnerBelow(child, here, owner), scopes + ScopeOf(child))
    ensures Agrees(s, n, prefix, owner, scopes)
  {
    hide Attributed, WalkList, WalkOne, Recorded, Nested, OwnCalls, Tag, TagIf, CallsInList, CallsInStmt, OwnerBelow, ScopeOf;
    var child, here := Nested(s)[n - 1], prefix + [n - 1];
    ChildAgrees(child, here, owner, scopes, s);
    OneMoreChild(s, n, prefix, owner, scopes);
    OneMoreOwn(s, n, owner);
    SumsAgree(Attributed(s, n - 1, prefix, owner),
              (if owner.Some? && !IsDefinition(child) then Tag(owner.value, OwnCalls(child)) else multiset{})
              + Attributed(child, |Nested(child)|, here, OwnerBelow(child, here, owner)),
              Recorded(WalkList(Nested(s), n - 1, s, prefix, 0, scopes)), TagIf(owner, CallsInList(Nested(s), n - 1, s)),
              Recorded(WalkOne(child, here, scopes, s)), TagIf(owner, CallsInStmt(child, s)));
  }

  lemma {:induction false} WalksAgree(s: Stmt, n: nat, prefix: Address, owner: Option<Address>, scopes: seq<Scope>)
    requires n <= |Nested(s)|
    ensures Agrees(s, n, prefix, owner, scopes)
    decreases s, n
  {
    hide Agrees, OwnerBelow, ScopeOf, Nested;
    if n == 0 {
      NothingAgrees(s, prefix, owner, scopes);
    } else {
      var child, here := Nested(s)[n - 1], prefix + [n - 1];
      assert Inside(child, s);
      WalksAgree(s, n - 1, prefix, owner, scopes);
      WalksAgree(child, |Nested(child)|, here, OwnerBelow(child, here, owner), scopes + ScopeOf(child));
      OneMoreAgrees(s, n, prefix, owner, scopes);
    }
  }

  /** Over a whole module, what is recorded is what the innermost callable owns, call for call:
      each name-rooted call in a callable's body exactly once, under that callable, and none of
      those in class bodies, at module level or in headers. */
  lemma CallsGoToTheInnermostCallable(body: seq<Stmt>)
    ensures var root := ModuleTree(body);
            Recorded(Walk(root)) == Attributed(root, |Nested(root)|, [], None)
  {
    var root := ModuleTree(body);
    WalksAgree(root, |Nested(root)|, [], None, ScopeOf(root));
    hide Attributed, WalkList, Recorded, Nested;
  }

  // ---------------------------------------------------------------------------
  // Conservation.
  // ---------------------------------------------------------------------------

  /** All name-rooted calls inside `s`, headers and class bodies included. */
  function CallCount(s: Stmt, n: nat): nat
    requires n <= |Nested(s)|
    decreases s, n
  {
    if n == 0 then 0
    else
      var child := Nested(s)[n - 1];
      assert Inside(child, s);
      CallCount(s, n - 1) + |OwnCalls(child)| + CallCount(child, |Nested(child)|)
  }

  /** Those outside any callable's body, or in a definition's header. */
  function DroppedCount(s: Stmt, n: nat, owned: bool): nat
    requires n <= |Nested(s)|
    decreases s, n
  {
    if n == 0 then 0
    else
      var child := Nested(s)[n - 1];
      assert Inside(child, s);
      DroppedCount(s, n - 1, owned)
      + (if owned && !IsDefinition(child) then 0 else |OwnCalls(child)|)
      + DroppedCount(child, |Nested(child)|, child.FunctionDef? || (owned && !child.ClassDef?))
  }

  lemma {:induction false} AttributedAndDropped(s: Stmt, n: nat, prefix: Address, owner: Option<Address>)
    requires n <= |Nested(s)|
    ensures |Attributed(s, n, prefix, owner)| + DroppedCount(s, n, owner.Some?) == CallCount(s, n)
    decreases s, n
  {
    hide Nested, OwnCalls, Tag;
    if n > 0 {
      var child, here := Nested(s)[n - 1], prefix + [n - 1];
      assert Inside(child, s);
      AttributedAndDropped(s, n - 1, prefix, owner);
      AttributedAndDropped(child, |Nested(child)|, here, OwnerBelow(child, here, owner));
      OneMoreAttributed(s, n, prefix, owner);
      OneMoreCounted(s, n, owner.Some?);
      hide Attributed, DroppedCount, CallCount;
    }
  }

  lemma OneMoreCounted(s: Stmt, n: nat, owned: bool)
    requires 0 < n <= |Nested(s)| && Inside(Nested(s)[n - 1], s)
    ensures var child := Nested(s)[n - 1];
            && CallCount(s, n) == CallCount(s, n - 1) + |OwnCalls(child)| + CallCount(child, |Nested(child)|)
            && DroppedCount(s, n, owned)
               == DroppedCount(s, n - 1, owned) + (if owned && !IsDefinition(child) then 0 else |OwnCalls(child)|)
                  + DroppedCount(child, |Nested(child)|, child.FunctionDef? || (owned && !child.ClassDef?))
  {
    hide Nested, OwnCalls;
  }

  lemma {:induction false} OneRecordPerCall(home: string, found: seq<Found>)
    requires AllDefinitions(found)
    ensures |OutputOf(home, found).calls| == |Recorded(found)|
  {
    hide BodyCalls, RecordOf;
    if found != [] {
      assert found[|found| - 1] in found;
      OneRecordPerCall(home, found[..|found| - 1]);
    }
  }

  /** Nothing is counted twice and nothing else is lost: what a module records and what stands
      outside every callable's body make up all its name-rooted calls. */
  lemma CallsAreConserved(body: seq<Stmt>, home: string)
    ensures var root := ModuleTree(body);
            |OutputOf(home, Walk(root)).calls| + DroppedCount(root, |Nested(root)|, false) == CallCount(root, |Nested(root)|)
  {
    var root := ModuleTree(body);
    EveryDefinitionIsFoundOnce(root);
    OneRecordPerCall(home, Walk(root));
    CallsGoToTheInnermostCallable(body);
    AttributedAndDropped(root, |Nested(root)|, [], None);
    hide *;
  }
}
