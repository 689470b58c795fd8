/** Which specialist tools an intent calls for, and when the code analyst need not wait. */
module ToolPlans {
  datatype Agent = Indexer | GraphQuery | CodeAnalyst | Memory

  datatype Intent = Lookup | Relationship | Explanation | Comparison | Pattern | Indexing | Mixed

  /** What the tool plans look at in a query: whether it asks for a comparison, and which
      relationship tools its wording implies. */
  datatype Query = Query(wantsComparison: bool, relationTools: seq<string>)

  /** `first` tools run before `parallel` ones. */
  datatype Tools = Tools(first: seq<string>, parallel: seq<string>)

  const NO_TOOLS := Tools([], [])
  const FIND := ["find_entity"]
  const RELATIONS := ["get_dependencies", "get_dependents", "trace_imports", "find_related"]

  /** `INTENT_TOOL_MAP` */
  function IntentTools(intent: Intent, agent: Agent): Tools {
    match (intent, agent)
    case (Lookup, GraphQuery) => Tools(FIND, [])
    case (Lookup, CodeAnalyst) => Tools([], ["get_code_snippet", "analyze_class"])
    case (Relationship, GraphQuery) => Tools(FIND, RELATIONS)
    case (Explanation, GraphQuery) => Tools(FIND, [])
    case (Explanation, CodeAnalyst) =>
      Tools([], ["explain_implementation", "analyze_function", "analyze_class", "get_code_snippet"])
    case (Comparison, GraphQuery) => Tools(FIND, [])
    case (Comparison, CodeAnalyst) => Tools([], ["compare_implementations"])
    case (Pattern, CodeAnalyst) => Tools([], ["find_patterns"])
    case (Indexing, Indexer) => Tools([], ["index_repository"])
    case (Mixed, GraphQuery) => Tools(FIND, RELATIONS)
    case (Mixed, CodeAnalyst) =>
      Tools([], ["get_code_snippet", "explain_implementation", "analyze_function", "analyze_class"])
    case (_, _) => NO_TOOLS
  }

  function ToolPlan(intent: Intent, agent: Agent, query: Query): Tools {
    if query.wantsComparison && intent in {Comparison, Mixed} && agent == GraphQuery then Tools(FIND, query.relationTools)
    else if query.wantsComparison && intent in {Comparison, Mixed} && agent == CodeAnalyst
    then Tools([], ["compare_implementations"])
    else IntentTools(intent, agent)
  }

  const ENTITY_TOOLS: set<string> :=
    {"get_code_snippet", "explain_implementation", "analyze_function", "analyze_class", "compare_implementations"}

  /** `code_analyst_can_start_now` */
  predicate CanStartNow(intent: Intent, query: Query) {
    var parallel := ToolPlan(intent, CodeAnalyst, query).parallel;
    if parallel == [] then false
    else if exists tool :: tool in parallel && tool in ENTITY_TOOLS then false
    else "find_patterns" in parallel
  }

  /** The analyst may start early exactly when its whole tool plan is the pattern search. */
  lemma EarlyStartIsForPatternsOnly(intent: Intent, query: Query)
    ensures CanStartNow(intent, query) <==> intent == Pattern
    ensures CanStartNow(intent, query) <==> ToolPlan(intent, CodeAnalyst, query).parallel == ["find_patterns"]
  {
    var parallel := ToolPlan(intent, CodeAnalyst, query).parallel;
    if parallel != [] && intent != Pattern {
      assert parallel[0] in parallel && parallel[0] in ENTITY_TOOLS;
      assert parallel != ["find_patterns"];
    } else if intent == Pattern {
      assert parallel[0] == "find_patterns";
      assert "find_patterns" !in ENTITY_TOOLS by {
        assert |"find_patterns"| == 13 && |"analyze_class"| == 13 && "find_patterns"[0] != "analyze_class"[0];
      }
    }
  }

  /** And then the graph task has no tool to run, so it finds nothing. */
  lemma NoGraphWorkWhenEarly(intent: Intent, query: Query)
    requires CanStartNow(intent, query)
    ensures ToolPlan(intent, GraphQuery, query) == NO_TOOLS
  {
    EarlyStartIsForPatternsOnly(intent, query);
  }
}
