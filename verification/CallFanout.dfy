/** Which calls the graph task and the analyst make for what the lookups found. */
module CallFanout {
  import opened ToolPlans

  /** What is read of a search hit. A term without a hit has one with nothing in it. */
  datatype Hit = Hit(qualifiedName: string, name: string, filePath: string, path: string, isClass: bool)

  datatype Call = Call(tool: string, name: string)

  const NO_HIT := Hit("", "", "", "", false)
  const DEFAULT_ANALYSIS_CANDIDATES := 3
  const REFINEMENT_CANDIDATE_CAP := 2

  function FirstOf(a: string, b: string): string {
    if a != "" then a else b
  }

  function Identity(hit: Hit): string {
    FirstOf(hit.qualifiedName, FirstOf(hit.filePath, FirstOf(hit.name, hit.path)))
  }

  function ResolvedName(entity: string, hit: Hit): string {
    FirstOf(hit.qualifiedName, FirstOf(hit.name, entity))
  }

  function CandidateLimit(iteration: nat): nat {
    if iteration > 1 then REFINEMENT_CANDIDATE_CAP else DEFAULT_ANALYSIS_CANDIDATES
  }

  function HitAt(hits: seq<Hit>, i: nat): Hit {
    if i < |hits| then hits[i] else NO_HIT
  }

  // ---------------------------------------------------------------------------
  // Candidates.
  // ---------------------------------------------------------------------------

  function Identities(hits: seq<Hit>): set<string> {
    set hit | hit in hits :: Identity(hit)
  }

  /** One more hit of a ranked pool: taken below the limit when it has an identity of its own. */
  function Taken(before: seq<Hit>, hit: Hit, limit: nat): seq<Hit> {
    if |before| < limit && Identity(hit) != "" && Identity(hit) !in Identities(before) then before + [hit] else before
  }

  function Selected(pool: seq<Hit>, n: nat, limit: nat): seq<Hit>
    requires n <= |pool|
  {
    if n == 0 then [] else Taken(Selected(pool, n - 1, limit), pool[n - 1], limit)
  }

  lemma IdentitiesOfMore(hits: seq<Hit>, hit: Hit)
    ensures Identities(hits + [hit]) == Identities(hits) + {Identity(hit)}
  {
    assert forall h :: h in hits + [hit] <==> h in hits || h == hit;
  }

  /** Selected from hits with these identities: none twice, and below the limit none left out. */
  ghost predicate IsSelection(selected: seq<Hit>, ids: set<string>, limit: nat) {
    && |Identities(selected)| == |selected| <= limit
    && Identities(selected) <= ids - {""}
    && (|selected| < limit ==> Identities(selected) == ids - {""})
  }

  lemma TakenIsSelection(before: seq<Hit>, hit: Hit, ids: set<string>, limit: nat)
    requires IsSelection(before, ids, limit)
    ensures IsSelection(Taken(before, hit, limit), ids + {Identity(hit)}, limit)
  {
    hide Identity, Identities;
    IdentitiesOfMore(before, hit);
  }

  lemma {:induction false} SelectedIsSelection(pool: seq<Hit>, n: nat, limit: nat)
    requires n <= |pool|
    ensures IsSelection(Selected(pool, n, limit), Identities(pool[..n]), limit)
  {
    hide Identity, Identities, Taken;
    NoHitsNoIdentities();
    if n > 0 {
      SelectedIsSelection(pool, n - 1, limit);
      TakenIsSelection(Selected(pool, n - 1, limit), pool[n - 1], Identities(pool[..n - 1]), limit);
      assert pool[..n] == pool[..n - 1] + [pool[n - 1]];
      IdentitiesOfMore(pool[..n - 1], pool[n - 1]);
      hide IsSelection;
    }
  }

  lemma {:induction false} SelectedStays(pool: seq<Hit>, m: nat, n: nat, limit: nat)
    requires m <= n <= |pool| && |Selected(pool, m, limit)| >= limit
    ensures Selected(pool, n, limit) == Selected(pool, m, limit)
  {
    if m < n {
      SelectedStays(pool, m, n - 1, limit);
    }
  }

  /** The loop: no identity twice, up to the limit. */
  method SelectCandidates(pool: seq<Hit>, limit: nat) returns (selected: seq<Hit>)
    requires limit > 0
    ensures selected == Selected(pool, |pool|, limit)
  {
    hide Identity, Identities;
    NoHitsNoIdentities();
    selected := [];
    var seen: set<string> := {};
    for n := 0 to |pool|
      invariant |selected| < limit && selected == Selected(pool, n, limit) && seen == Identities(selected)
    {
      var key := Identity(pool[n]);
      if key == "" || key in seen {
        continue;
      }
      IdentitiesOfMore(selected, pool[n]);
      seen := seen + {key};
      selected := selected + [pool[n]];
      if |selected| >= limit {
        SelectedStays(pool, n + 1, |pool|, limit);
        break;
      }
    }
  }

  lemma NoHitsNoIdentities()
    ensures Identities([]) == {}
  {
  }

  // ---------------------------------------------------------------------------
  // Relationship calls.
  // ---------------------------------------------------------------------------

  /** The names to expand: the candidates', or those of the terms that were found. */
  function RelationNames(candidates: seq<Hit>, terms: seq<string>, hits: seq<Hit>): (names: seq<string>)
    ensures |names| == if candidates != [] then |candidates| else |terms|
  {
    if candidates != [] then seq(|candidates|, i requires 0 <= i < |candidates| => ResolvedName("", candidates[i]))
    else seq(|terms|, i requires 0 <= i < |terms| =>
               if Identity(HitAt(hits, i)) == "" then "" else ResolvedName(terms[i], HitAt(hits, i)))
  }

  /** The relationship tools asked for one name, in the order of the code. */
  function NameTools(parallel: seq<string>, relatedType: bool): (tools: seq<string>)
    ensures |tools| <= |RELATIONS| && forall tool :: tool in tools ==> tool in parallel
  {
    (if "get_dependencies" in parallel then ["get_dependencies"] else [])
    + (if "get_dependents" in parallel then ["get_dependents"] else [])
    + (if "trace_imports" in parallel then ["trace_imports"] else [])
    + (if "find_related" in parallel && relatedType then ["find_related"] else [])
  }

  function CallsFor(tools: seq<string>, name: string): seq<Call> {
    seq(|tools|, i requires 0 <= i < |tools| => Call(tools[i], name))
  }

  /** The calls for the first `n` names: each name once, an empty one never. */
  function RelationCallsOf(tools: seq<string>, names: seq<string>, n: nat): (calls: seq<Call>)
    requires n <= |names|
    ensures |calls| <= |tools| * n
  {
    if n == 0 then []
    else
      var before := RelationCallsOf(tools, names, n - 1);
      if names[n - 1] == "" || names[n - 1] in names[..n - 1] then before else before + CallsFor(tools, names[n - 1])
  }

  /** Every tool of the plan is asked about every name, and nothing else. */
  lemma {:induction false} RelationCallsExactly(tools: seq<string>, names: seq<string>, n: nat)
    requires n <= |names|
    ensures forall call :: call in RelationCallsOf(tools, names, n)
              <==> call.tool in tools && call.name != "" && call.name in names[..n]
  {
    if n > 0 {
      RelationCallsExactly(tools, names, n - 1);
      assert names[..n] == names[..n - 1] + [names[n - 1]];
      var name := names[n - 1];
      forall call ensures call in CallsFor(tools, name) <==> call.tool in tools && call.name == name {
        if call.tool in tools && call.name == name {
          var i :| 0 <= i < |tools| && tools[i] == call.tool;
          assert CallsFor(tools, name)[i] == call;
        }
      }
      hide CallsFor;
    }
  }

  predicate AllDiffer(calls: seq<Call>) {
    forall i, j :: 0 <= i < j < |calls| ==> calls[i] != calls[j]
  }

  lemma AllDifferInBoth(before: seq<Call>, more: seq<Call>)
    requires AllDiffer(before) && AllDiffer(more) && forall call :: call in more ==> call !in before
    ensures AllDiffer(before + more)
  {
    assert forall i :: 0 <= i < |more| ==> more[i] in more;
  }

  /** And never twice. */
  lemma {:induction false} NoRelationCallTwice(tools: seq<string>, names: seq<string>, n: nat)
    requires n <= |names| && forall i, j :: 0 <= i < j < |tools| ==> tools[i] != tools[j]
    ensures AllDiffer(RelationCallsOf(tools, names, n))
  {
    if n > 0 {
      NoRelationCallTwice(tools, names, n - 1);
      RelationCallsExactly(tools, names, n - 1);
      var before, name := RelationCallsOf(tools, names, n - 1), names[n - 1];
      if name != "" && name !in names[..n - 1] {
        assert AllDiffer(CallsFor(tools, name));
        AllDifferInBoth(before, CallsFor(tools, name));
      }
      hide AllDiffer;
    }
  }

  function Seen(names: seq<string>, n: nat): set<string>
    requires n <= |names|
  {
    set name | name in names[..n] && name != ""
  }

  lemma SeenOneMore(names: seq<string>, n: nat)
    requires n < |names|
    ensures Seen(names, n + 1) == if names[n] == "" then Seen(names, n) else Seen(names, n) + {names[n]}
    ensures names[n] in Seen(names, n) <==> names[n] != "" && names[n] in names[..n]
  {
    assert names[..n + 1] == names[..n] + [names[n]];
  }

  method ExpandRelations(parallel: seq<string>, relatedType: bool, candidates: seq<Hit>, terms: seq<string>, hits: seq<Hit>)
    returns (calls: seq<Call>)
    ensures var names := RelationNames(candidates, terms, hits);
            calls == RelationCallsOf(NameTools(parallel, relatedType), names, |names|)
  {
    hide RelationNames, NameTools, CallsFor;
    var names := RelationNames(candidates, terms, hits);
    var tools := NameTools(parallel, relatedType);
    calls := [];
    var seen: set<string> := {};
    for n := 0 to |names|
      invariant seen == Seen(names, n)
      invariant calls == RelationCallsOf(tools, names, n)
    {
      var name := names[n];
      SeenOneMore(names, n);
      if name != "" && name !in seen {
        seen := seen + {name};
        calls := calls + CallsFor(tools, name);
      }
    }
  }

  // ---------------------------------------------------------------------------
  // Analysis calls.
  // ---------------------------------------------------------------------------

  /** A hit under the name it is analysed by. */
  datatype Named = Named(name: string, hit: Hit)

  /** The hits of terms that were found. */
  function Found(hits: seq<Hit>): (found: seq<Hit>)
    ensures |found| <= |hits|
  {
    if hits == [] then []
    else Found(hits[..|hits| - 1]) + if Identity(hits[|hits| - 1]) == "" then [] else [hits[|hits| - 1]]
  }

  /** What the analyst looks at: the candidates or else what was found, and only so many of them
      in a refinement round; nothing for a query out of scope. */
  function Looked(candidates: seq<Hit>, hits: seq<Hit>, outOfScope: bool, iteration: nat): seq<Hit> {
    var all := if outOfScope then [] else if candidates != [] then candidates else Found(hits);
    if iteration > 1 && |all| > CandidateLimit(iteration) then all[..CandidateLimit(iteration)] else all
  }

  /** The entities of the query, or else the names of what is looked at before the cap. */
  function Entities(entities: seq<string>, candidates: seq<Hit>, hits: seq<Hit>, outOfScope: bool): seq<string> {
    var all := if outOfScope then [] else if candidates != [] then candidates else Found(hits);
    if entities != [] then entities else seq(|all|, i requires 0 <= i < |all| => ResolvedName("", all[i]))
  }

  function NamedHits(looked: seq<Hit>, entities: seq<string>, hits: seq<Hit>): (named: seq<Named>)
    ensures |named| == if looked != [] then |looked| else |entities|
  {
    if looked != [] then seq(|looked|, i requires 0 <= i < |looked| => Named(ResolvedName("", looked[i]), looked[i]))
    else seq(|entities|, i requires 0 <= i < |entities| => Named(ResolvedName(entities[i], HitAt(hits, i)), HitAt(hits, i)))
  }

  /** Whether a tool is asked about a hit: an empty name never, a class only by `analyze_class`, the
      rest only by `analyze_function`. */
  predicate IsAsked(tool: string, named: Named) {
    named.name != "" && (tool == "analyze_class" ==> named.hit.isClass) && (tool == "analyze_function" ==> !named.hit.isClass)
  }

  function Asked(tool: string, named: seq<Named>, n: nat): (calls: seq<Call>)
    requires n <= |named|
    ensures |calls| <= n
    ensures forall call :: call in calls ==> call.tool == tool
  {
    if n == 0 then []
    else Asked(tool, named, n - 1) + if IsAsked(tool, named[n - 1]) then [Call(tool, named[n - 1].name)] else []
  }

  /** Where a snippet is read from: a file, or the range of a name. */
  function SnippetTarget(looked: seq<Hit>, entities: seq<string>, hits: seq<Hit>, i: nat): string
    requires i < if looked != [] then |looked| else |entities|
  {
    if looked != [] then FirstOf(looked[i].filePath, FirstOf(looked[i].qualifiedName, looked[i].name))
    else FirstOf(HitAt(hits, i).filePath, FirstOf(HitAt(hits, i).qualifiedName, entities[i]))
  }

  function Snippets(looked: seq<Hit>, entities: seq<string>, hits: seq<Hit>, n: nat): (calls: seq<Call>)
    requires n <= if looked != [] then |looked| else |entities|
    ensures |calls| <= n
    ensures forall call :: call in calls ==> call.tool == "get_code_snippet"
  {
    if n == 0 then []
    else
      var target := SnippetTarget(looked, entities, hits, n - 1);
      Snippets(looked, entities, hits, n - 1) + if target != "" then [Call("get_code_snippet", target)] else []
  }

  const HIT_TOOLS := ["explain_implementation", "analyze_class", "analyze_function"]

  /** The analyst's calls, tool by tool. */
  function AnalysisCallsOf(parallel: seq<string>, looked: seq<Hit>, entities: seq<string>, hits: seq<Hit>): (calls: seq<Call>)
    ensures forall call :: call in calls ==> call.tool in parallel && call.tool in HIT_TOOLS + ["get_code_snippet"]
  {
    var named := NamedHits(looked, entities, hits);
    (if "explain_implementation" in parallel then Asked("explain_implementation", named, |named|) else [])
    + (if "analyze_class" in parallel then Asked("analyze_class", named, |named|) else [])
    + (if "analyze_function" in parallel then Asked("analyze_function", named, |named|) else [])
    + (if "get_code_snippet" in parallel then Snippets(looked, entities, hits, |named|) else [])
  }

  method ForEachHit(tool: string, named: seq<Named>) returns (calls: seq<Call>)
    ensures calls == Asked(tool, named, |named|)
  {
    calls := [];
    for n := 0 to |named|
      invariant calls == Asked(tool, named, n)
    {
      var name, hit := named[n].name, named[n].hit;
      if name == "" || (tool == "analyze_class" && !hit.isClass) || (tool == "analyze_function" && hit.isClass) {
        continue;
      }
      calls := calls + [Call(tool, name)];
    }
  }

  method ReadSnippets(looked: seq<Hit>, entities: seq<string>, hits: seq<Hit>) returns (calls: seq<Call>)
    ensures calls == Snippets(looked, entities, hits, if looked != [] then |looked| else |entities|)
  {
    calls := [];
    for n := 0 to if looked != [] then |looked| else |entities|
      invariant calls == Snippets(looked, entities, hits, n)
    {
      var target := SnippetTarget(looked, entities, hits, n);
      if target == "" {
        continue;
      }
      calls := calls + [Call("get_code_snippet", target)];
    }
  }

  method Analyse(parallel: seq<string>, looked: seq<Hit>, entities: seq<string>, hits: seq<Hit>) returns (calls: seq<Call>)
    ensures calls == AnalysisCallsOf(parallel, looked, entities, hits)
  {
    var named := NamedHits(looked, entities, hits);
    var explanations, classes, functions, snippets: seq<Call> := [], [], [], [];
    if "explain_implementation" in parallel {
      explanations := ForEachHit("explain_implementation", named);
    }
    if "analyze_class" in parallel {
      classes := ForEachHit("analyze_class", named);
    }
    if "analyze_function" in parallel {
      functions := ForEachHit("analyze_function", named);
    }
    if "get_code_snippet" in parallel {
      snippets := ReadSnippets(looked, entities, hits);
    }
    calls := explanations + classes + functions + snippets;
  }

  /** A hit is analysed as a class or as a function, not as both: at most one call for each hit. */
  lemma {:induction false} ClassOrFunction(named: seq<Named>, n: nat)
    requires n <= |named|
    ensures |Asked("analyze_class", named, n)| + |Asked("analyze_function", named, n)| <= n
  {
    if n > 0 {
      ClassOrFunction(named, n - 1);
    }
  }

  /** So there are at most three calls for each hit looked at, or each entity. */
  lemma AnalysisIsBounded(parallel: seq<string>, looked: seq<Hit>, entities: seq<string>, hits: seq<Hit>)
    ensures |AnalysisCallsOf(parallel, looked, entities, hits)| <= 3 * if looked != [] then |looked| else |entities|
  {
    var named := NamedHits(looked, entities, hits);
    ClassOrFunction(named, |named|);
  }
}
