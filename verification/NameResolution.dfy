/** Resolving a textual callee or base-class name to an indexed qualified name.

    A candidate is looked up and, when absent, rewritten through the import bindings of
    the module that owns it (a re-export). The rewriting is cut after a fixed number of
    hops and when a name repeats. */
module NameResolution {
  import opened Options
  import opened DottedNames
  import opened ImportBindings
  import opened RewriteOrbits

  /** The lookups one indexing pass builds. */
  datatype Tables = Tables(
    qns: set<string>,
    names: map<string, seq<string>>,
    modules: set<string>,
    classes: set<string>,
    reexports: map<string, Bindings>)

  const REEXPORT_MAX_HOPS: nat := 4

  // ---------------------------------------------------------------------------
  // Owners.
  // ---------------------------------------------------------------------------

  /** The first non-empty name, walking from `s` to its parents, that lies in `known`. */
  function NearestIn(s: string, known: set<string>): (r: Option<string>)
    ensures r.Some? ==> r.value in known && r.value != "" && DottedPrefix(r.value, s)
    ensures r.Some? ==> forall p :: p in known && DottedPrefix(p, s) ==> |p| <= |r.value|
    ensures r.None? ==> forall p :: p in known && p != "" ==> !DottedPrefix(p, s)
    decreases |s|
  {
    if s == "" then None
    else if s in known then Some(s)
    else
      ParentIsNextPrefix(s);
      NearestIn(Parent(s), known)
  }

  method OwningModule(qualifiedName: string, modules: set<string>) returns (r: Option<string>)
    ensures r == NearestIn(qualifiedName, modules)
  {
    var prefix := qualifiedName;
    while prefix != ""
      invariant NearestIn(prefix, modules) == NearestIn(qualifiedName, modules)
      decreases |prefix|
    {
      if prefix in modules {
        return Some(prefix);
      }
      prefix := Parent(prefix);
    }
    r := None;
  }

  /** The nearest class the name is defined inside of: a proper dotted prefix. */
  method EnclosingClass(qualifiedName: string, classes: set<string>) returns (r: Option<string>)
    ensures r == NearestIn(Parent(qualifiedName), classes)
  {
    var prefix := Parent(qualifiedName);
    while prefix != ""
      invariant NearestIn(prefix, classes) == NearestIn(Parent(qualifiedName), classes)
      decreases |prefix|
    {
      if prefix in classes {
        return Some(prefix);
      }
      prefix := Parent(prefix);
    }
    r := None;
  }

  /** Owner lookups return the longest dotted prefix in the set: of the name itself for a
      module, of the text before its last dot for an enclosing class. */
  lemma OwnerIsTheLongestPrefix(qualifiedName: string, known: set<string>, p: string)
    requires p in known && p != ""
    ensures DottedPrefix(p, qualifiedName) ==>
              NearestIn(qualifiedName, known).Some? && |p| <= |NearestIn(qualifiedName, known).value|
    ensures DottedPrefix(p, qualifiedName) && p != qualifiedName ==>
              NearestIn(Parent(qualifiedName), known).Some? && |p| <= |NearestIn(Parent(qualifiedName), known).value|
    ensures NearestIn(Parent(qualifiedName), known).Some? ==>
              DottedPrefix(NearestIn(Parent(qualifiedName), known).value, qualifiedName)
              && NearestIn(Parent(qualifiedName), known).value != qualifiedName
  {
    ParentIsNextPrefix(qualifiedName);
  }

  // ---------------------------------------------------------------------------
  // Re-exports.
  // ---------------------------------------------------------------------------

  /** What a module binds a name to, "" when it binds nothing. */
  function Lookup(reexports: map<string, Bindings>, owner: string, first: string): string {
    if owner in reexports && first in reexports[owner] then reexports[owner][first] else ""
  }

  /** One hop: replace the owning module and the segment after it by what the module binds. */
  function Rewrite(t: Tables, current: string): Option<string> {
    match NearestIn(current, t.modules)
    case None => None
    case Some(owner) =>
      if owner == current then None
      else
        var remainder := current[|owner| + 1..];
        var target := Lookup(t.reexports, owner, Head(remainder));
        if target == "" then None
        else if HasDot(remainder) then Some(target + "." + Rest(remainder))
        else Some(target)
  }

  function Hop(t: Tables): string -> Option<string> {
    (current: string) => Rewrite(t, current)
  }

  /** The meaning of `_follow_reexports`: the first indexed of the first five orbit elements. */
  function Follow(t: Tables, candidate: string): Option<string> {
    FirstHit(Hop(t), t.qns, candidate, 0, REEXPORT_MAX_HOPS + 1)
  }

  method FollowReexports(t: Tables, candidate: string) returns (r: Option<string>)
    ensures r == Follow(t, candidate)
  {
    ghost var step := Hop(t);
    ghost var limit: nat := REEXPORT_MAX_HOPS + 1;
    var current := candidate;
    var visited: set<string> := {};
    var hop: nat := 0;
    while hop < REEXPORT_MAX_HOPS + 1
      invariant hop <= limit
      invariant Searched(step, t.qns, candidate, hop, current, visited)
    {
      if current in t.qns {
        SearchFinds(step, t.qns, candidate, hop, current, visited, limit);
        return Some(current);
      }
      var next := NextName(t, current);
      if current in visited || next.None? {
        SearchFails(step, t.qns, candidate, hop, current, visited, limit);
        return None;
      }
      SearchAdvances(step, t.qns, candidate, hop, current, visited, next);
      visited := visited + {current};
      current := next.value;
      hop := hop + 1;
    }
    SearchExhausted(step, t.qns, candidate, current, visited, limit);
    r := None;
  }

  /** The body of one hop. */
  method NextName(t: Tables, current: string) returns (next: Option<string>)
    ensures next == Rewrite(t, current)
  {
    if |t.reexports| == 0 {
      return None;
    }
    var owner := OwningModule(current, t.modules);
    if owner.None? || owner.value == current {
      return None;
    }
    var remainder := current[|owner.value| + 1..];
    var target := Lookup(t.reexports, owner.value, Head(remainder));
    if target == "" {
      return None;
    }
    next := Some(if HasDot(remainder) then target + "." + Rest(remainder) else target);
  }

  /** `_follow_reexports` answers with `v` exactly when `v` is the first indexed name among the
      first five of the orbit; it answers nothing exactly when none of the five is indexed. */
  lemma FollowFindsTheFirstIndexed(t: Tables, candidate: string, v: string)
    ensures Follow(t, candidate) == Some(v)
            <==> exists n: nat :: n <= REEXPORT_MAX_HOPS && HitAt(Hop(t), t.qns, candidate, n)
                                  && Orbit(Hop(t), candidate, n) == Some(v)
                                  && forall m: nat :: m < n ==> !HitAt(Hop(t), t.qns, candidate, m)
  {
    var limit := REEXPORT_MAX_HOPS + 1;
    FirstHitIsFirst(Hop(t), t.qns, candidate, 0, limit);
    if n: nat :| n <= REEXPORT_MAX_HOPS && HitAt(Hop(t), t.qns, candidate, n)
                 && Orbit(Hop(t), candidate, n) == Some(v)
                 && forall m: nat :: m < n ==> !HitAt(Hop(t), t.qns, candidate, m)
    {
      SkipMisses(Hop(t), t.qns, candidate, n, limit);
    }
  }

  // ---------------------------------------------------------------------------
  // Resolving one reference.
  // ---------------------------------------------------------------------------

  /** A reference as written, and the file it stands in. */
  datatype Reference = Reference(callee: string, caller: string, home: string, bindings: Bindings, visible: set<string>)

  predicate IsInstanceName(head: string) {
    head == "self" || head == "cls"
  }

  /** `self.x` and `cls.x`, with whatever follows the first dot. */
  predicate IsInstanceReference(callee: string) {
    HasDot(callee) && IsInstanceName(Head(callee))
  }

  function BoundSpelling(ref: Reference): seq<string> {
    var head := Head(ref.callee);
    if head !in ref.bindings || ref.bindings[head] == "" then []
    else if HasDot(ref.callee) then [ref.bindings[head] + "." + Rest(ref.callee)]
    else [ref.bindings[head]]
  }

  /** The spellings to try, in order: through a binding, in the same module, as written. */
  function Spellings(ref: Reference): seq<string> {
    BoundSpelling(ref) + (if ref.home == "" then [] else [ref.home + "." + ref.callee]) + [ref.callee]
  }

  function FollowAll(t: Tables, candidates: seq<string>): (answers: seq<Option<string>>)
    ensures |answers| == |candidates| && forall i :: 0 <= i < |candidates| ==> answers[i] == Follow(t, candidates[i])
  {
    seq(|candidates|, i requires 0 <= i < |candidates| => Follow(t, candidates[i]))
  }

  /** The first of the candidates that leads anywhere. */
  function FirstResolved(t: Tables, candidates: seq<string>): Option<string> {
    FirstSome(FollowAll(t, candidates), 0)
  }

  /** The matches whose owning module the file can see. */
  function VisibleMatches(matches: seq<string>, modules: set<string>, visible: set<string>): (kept: seq<string>)
    ensures forall m :: m in kept <==> m in matches && NearestIn(m, modules).Some? && NearestIn(m, modules).value in visible
  {
    if matches == [] then []
    else
      var owner := NearestIn(matches[0], modules);
      (if owner.Some? && owner.value in visible then [matches[0]] else [])
      + VisibleMatches(matches[1..], modules, visible)
  }

  function Bucket(names: map<string, seq<string>>, name: string): seq<string> {
    if name in names then names[name] else []
  }

  /** What `_resolve_name` answers. */
  function Resolution(t: Tables, ref: Reference): Option<string> {
    if IsInstanceReference(ref.callee) then
      var owner := NearestIn(Parent(ref.caller), t.classes);
      if HasDot(Rest(ref.callee)) || owner.None? then None
      else FirstResolved(t, [owner.value + "." + Rest(ref.callee)])
    else
      var resolved := FirstResolved(t, Spellings(ref));
      if resolved.Some? || HasDot(ref.callee) then resolved
      else
        var matches := VisibleMatches(Bucket(t.names, ref.callee), t.modules, ref.visible);
        if |matches| == 1 then Some(matches[0]) else None
  }

  method FirstIndexed(t: Tables, candidates: seq<string>) returns (r: Option<string>)
    ensures r == FirstResolved(t, candidates)
  {
    var seen: set<string> := {};
    for k := 0 to |candidates|
      invariant FirstResolved(t, candidates) == FirstSome(FollowAll(t, candidates), k)
      invariant forall c :: c in seen ==> Follow(t, c).None?
    {
      if candidates[k] !in seen {
        seen := seen + {candidates[k]};
        r := FollowReexports(t, candidates[k]);
        if r.Some? {
          return;
        }
      }
    }
    r := None;
  }

  method ResolveName(t: Tables, ref: Reference) returns (r: Option<string>)
    ensures r == Resolution(t, ref)
  {
    var head, rest := Head(ref.callee), Rest(ref.callee);
    var dot := HasDot(ref.callee);
    if IsInstanceName(head) && dot {
      if HasDot(rest) {
        return None;
      }
      var owner := EnclosingClass(ref.caller, t.classes);
      if owner.None? {
        return None;
      }
      r := FirstIndexed(t, [owner.value + "." + rest]);
      return;
    }
    var candidates := [];
    if head in ref.bindings && ref.bindings[head] != "" {
      candidates := [if dot then ref.bindings[head] + "." + rest else ref.bindings[head]];
    }
    if ref.home != "" {
      candidates := candidates + [ref.home + "." + ref.callee];
    }
    candidates := candidates + [ref.callee];
    assert candidates == Spellings(ref);
    r := FirstIndexed(t, candidates);
    if r.Some? || dot {
      return;
    }
    var matches := VisibleMatches(Bucket(t.names, ref.callee), t.modules, ref.visible);
    r := if |matches| == 1 then Some(matches[0]) else None;
  }

  /** `v` is indexed and at most four re-export hops from `spelling`, with nothing indexed before. */
  ghost predicate ReachedFrom(t: Tables, spelling: string, v: string) {
    v in t.qns
    && exists n: nat :: n <= REEXPORT_MAX_HOPS && Orbit(Hop(t), spelling, n) == Some(v)
                        && forall m: nat :: m < n ==> !HitAt(Hop(t), t.qns, spelling, m)
  }

  lemma FollowReaches(t: Tables, spelling: string, v: string)
    ensures Follow(t, spelling) == Some(v) <==> ReachedFrom(t, spelling, v)
  {
    FollowFindsTheFirstIndexed(t, spelling, v);
    if n: nat :| n <= REEXPORT_MAX_HOPS && Orbit(Hop(t), spelling, n) == Some(v)
                 && forall m: nat :: m < n ==> !HitAt(Hop(t), t.qns, spelling, m)
    {
      if v in t.qns {
        assert HitAt(Hop(t), t.qns, spelling, n);
      }
    }
  }

  /** Every bare name points at indexed names only. */
  ghost predicate NamesAreIndexed(t: Tables) {
    forall name, v :: name in t.names && v in t.names[name] ==> v in t.qns
  }

  predicate IsVisibleMatch(t: Tables, ref: Reference, v: string) {
    var owner := NearestIn(v, t.modules);
    v in Bucket(t.names, ref.callee) && owner.Some? && owner.value in ref.visible
  }

  /** The only indexed name spelt `name` whose owning module the file sees. */
  ghost predicate UniqueVisibleMatch(t: Tables, ref: Reference, v: string) {
    IsVisibleMatch(t, ref, v) && forall w :: IsVisibleMatch(t, ref, w) ==> w == v
  }

  /** Soundness, for every table and reference. A result is an indexed name. For `self.x` it is
      reached from `x` in the nearest enclosing class, and `x` has no dot; otherwise it is
      reached from the first spelling that reaches anything; or, only for a name without a
      dot that no spelling reaches, it is the unique visible bare-name match. */
  lemma ResolutionIsSound(t: Tables, ref: Reference, v: string)
    requires NamesAreIndexed(t)
    requires Resolution(t, ref) == Some(v)
    ensures v in t.qns
    ensures IsInstanceReference(ref.callee) ==>
              !HasDot(Rest(ref.callee)) && NearestIn(Parent(ref.caller), t.classes).Some?
              && ReachedFrom(t, NearestIn(Parent(ref.caller), t.classes).value + "." + Rest(ref.callee), v)
    ensures !IsInstanceReference(ref.callee) ==>
              (exists i :: 0 <= i < |Spellings(ref)| && ReachedFrom(t, Spellings(ref)[i], v)
                           && forall j, w :: 0 <= j < i ==> !ReachedFrom(t, Spellings(ref)[j], w))
              || (!HasDot(ref.callee) && UniqueVisibleMatch(t, ref, v)
                  && forall j, w :: 0 <= j < |Spellings(ref)| ==> !ReachedFrom(t, Spellings(ref)[j], w))
  {
    if IsInstanceReference(ref.callee) {
      var owner := NearestIn(Parent(ref.caller), t.classes);
      FollowReaches(t, owner.value + "." + Rest(ref.callee), v);
    } else if FirstResolved(t, Spellings(ref)).Some? {
      FirstSpellingWins(t, Spellings(ref), v);
    } else {
      NoSpellingReaches(t, Spellings(ref));
      BareMatchIsUnique(t, ref, v);
    }
  }

  lemma FirstSpellingWins(t: Tables, candidates: seq<string>, v: string)
    requires FirstResolved(t, candidates) == Some(v)
    ensures v in t.qns
    ensures exists i :: 0 <= i < |candidates| && ReachedFrom(t, candidates[i], v)
                        && forall j, w :: 0 <= j < i ==> !ReachedFrom(t, candidates[j], w)
  {
    var answers := FollowAll(t, candidates);
    var i :| 0 <= i < |candidates| && answers[i] == Some(v) && forall j :: 0 <= j < i ==> answers[j].None?;
    FollowReaches(t, candidates[i], v);
    forall j, w | 0 <= j < i ensures !ReachedFrom(t, candidates[j], w) {
      FollowReaches(t, candidates[j], w);
    }
  }

  lemma NoSpellingReaches(t: Tables, candidates: seq<string>)
    requires FirstResolved(t, candidates).None?
    ensures forall j, w :: 0 <= j < |candidates| ==> !ReachedFrom(t, candidates[j], w)
  {
    forall j, w | 0 <= j < |candidates| ensures !ReachedFrom(t, candidates[j], w) {
      assert FollowAll(t, candidates)[j].None?;
      FollowReaches(t, candidates[j], w);
    }
  }

  lemma BareMatchIsUnique(t: Tables, ref: Reference, v: string)
    requires NamesAreIndexed(t)
    requires VisibleMatches(Bucket(t.names, ref.callee), t.modules, ref.visible) == [v]
    ensures v in t.qns && UniqueVisibleMatch(t, ref, v)
  {
    var matches := VisibleMatches(Bucket(t.names, ref.callee), t.modules, ref.visible);
    assert v in matches && forall w :: w in matches ==> w == v;
    assert forall w :: IsVisibleMatch(t, ref, w) ==> w in matches;
  }
}
