/** Resolution does not depend on the order in which the tables were filled. */
module ResolutionOrder {
  import opened DottedNames
  import opened RewriteOrbits
  import opened NameResolution

  ghost predicate NoDuplicates(s: seq<string>) {
    forall i, j :: 0 <= i < j < |s| ==> s[i] != s[j]
  }

  /** Same contents, whatever the order of the buckets; re-export tables may differ in
      modules that bind nothing. */
  ghost predicate SameTables(t: Tables, u: Tables) {
    && t.qns == u.qns && t.modules == u.modules && t.classes == u.classes
    && (forall owner, first :: owner in t.modules && owner != "" ==> Lookup(t.reexports, owner, first) == Lookup(u.reexports, owner, first))
    && (forall name :: NoDuplicates(Bucket(t.names, name)) && NoDuplicates(Bucket(u.names, name)))
    && (forall name, v :: v in Bucket(t.names, name) <==> v in Bucket(u.names, name))
  }

  lemma SameRewrite(t: Tables, u: Tables, current: string)
    requires SameTables(t, u)
    ensures Rewrite(t, current) == Rewrite(u, current)
  {
  }

  lemma SameFollow(t: Tables, u: Tables, start: string)
    requires SameTables(t, u)
    ensures Follow(t, start) == Follow(u, start)
  {
    forall current ensures Hop(t)(current) == Hop(u)(current) {
      SameRewrite(t, u, current);
    }
    SameSearch(Hop(t), Hop(u), t.qns, start, 0, REEXPORT_MAX_HOPS + 1);
  }

  lemma SameFirstResolved(t: Tables, u: Tables, candidates: seq<string>)
    requires SameTables(t, u)
    ensures FirstResolved(t, candidates) == FirstResolved(u, candidates)
  {
    forall k | 0 <= k < |candidates| ensures FollowAll(t, candidates)[k] == FollowAll(u, candidates)[k] {
      SameFollow(t, u, candidates[k]);
    }
    assert FollowAll(t, candidates) == FollowAll(u, candidates);
  }

  lemma {:induction false} FilterKeepsDistinct(matches: seq<string>, modules: set<string>, visible: set<string>)
    requires NoDuplicates(matches)
    ensures NoDuplicates(VisibleMatches(matches, modules, visible))
  {
    if matches != [] {
      FilterKeepsDistinct(matches[1..], modules, visible);
      assert matches[0] !in matches[1..];
    }
  }

  lemma SameSingleton(a: seq<string>, b: seq<string>)
    requires NoDuplicates(a) && NoDuplicates(b) && forall v :: v in a <==> v in b
    ensures |a| == 1 <==> |b| == 1
    ensures |a| == 1 ==> a[0] == b[0]
  {
    assert |a| > 0 ==> a[0] in b;
    assert |b| > 0 ==> b[0] in a;
    assert |a| > 1 ==> a[1] in b;
    assert |b| > 1 ==> b[1] in a;
  }

  /** Resolution is independent of the order in which names entered the tables. */
  lemma ResolutionIgnoresTableOrder(t: Tables, u: Tables, ref: Reference)
    requires SameTables(t, u)
    ensures Resolution(t, ref) == Resolution(u, ref)
  {
    if IsInstanceReference(ref.callee) {
      var owner := NearestIn(Parent(ref.caller), t.classes);
      if owner.Some? {
        SameFirstResolved(t, u, [owner.value + "." + Rest(ref.callee)]);
      }
    } else {
      SameFirstResolved(t, u, Spellings(ref));
      var a := VisibleMatches(Bucket(t.names, ref.callee), t.modules, ref.visible);
      var b := VisibleMatches(Bucket(u.names, ref.callee), u.modules, ref.visible);
      FilterKeepsDistinct(Bucket(t.names, ref.callee), t.modules, ref.visible);
      FilterKeepsDistinct(Bucket(u.names, ref.callee), u.modules, ref.visible);
      SameSingleton(a, b);
    }
  }
}
