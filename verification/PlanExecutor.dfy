/** One plan executed by concurrent specialist tasks, as a step system. Everything between two
    awaits is one step. Any call may be refused by the budget, come back, time out or raise. */
module PlanExecutor {
  import opened Options
  import opened ToolPlans
  import opened CallFanout

  // ---------------------------------------------------------------------------
  // Calls.
  // ---------------------------------------------------------------------------

  /** Why a call gave no result: skipped for the budget, out of time, or any other error. */
  datatype Failure = Skipped | TimedOut | Raised

  datatype CallState = Waiting | InFlight | Back | Failed(why: Failure)

  datatype Slot = Slot(tool: string, state: CallState)

  /** A refused call may already be on record: the time left is looked at once more after that. */
  datatype Move = Issue | Refuse(recorded: bool) | Return | Fail(why: Failure)

  datatype Record = Record(agent: Agent, tool: string)

  predicate CanMove(slot: Slot, move: Move) {
    match move
    case Issue => slot.state == Waiting
    case Refuse(_) => slot.state == Waiting
    case Return => slot.state == InFlight
    case Fail(why) => slot.state == InFlight && why != Skipped
  }

  function Moved(slot: Slot, move: Move): Slot {
    slot.(state := match move
                   case Issue => InFlight
                   case Refuse(_) => Failed(Skipped)
                   case Return => Back
                   case Fail(why) => Failed(why))
  }

  function Recorded(agent: Agent, slot: Slot, move: Move): seq<Record> {
    if move.Issue? || (move.Refuse? && move.recorded) then [Record(agent, slot.tool)] else []
  }

  function Fresh(tools: seq<string>): (slots: seq<Slot>)
    ensures |slots| == |tools| && forall i :: 0 <= i < |tools| ==> slots[i] == Slot(tools[i], Waiting)
  {
    seq(|tools|, i requires 0 <= i < |tools| => Slot(tools[i], Waiting))
  }

  predicate Settled(slots: seq<Slot>) {
    forall slot :: slot in slots ==> slot.state.Back? || slot.state.Failed?
  }

  predicate AllBack(slots: seq<Slot>) {
    forall slot :: slot in slots ==> slot.state.Back?
  }

  predicate AllFailed(slots: seq<Slot>) {
    forall slot :: slot in slots ==> slot.state.Failed?
  }

  // ---------------------------------------------------------------------------
  // State.
  // ---------------------------------------------------------------------------

  /** The plan and what the code reads of its query: `relatedType` says that the wording names a
      type of relationship. */
  datatype Plan = Plan(agents: set<Agent>, intent: Intent, query: Query, outOfScope: bool, relatedType: bool,
                       terms: seq<string>, entities: seq<string>, iteration: nat, retryTools: Option<set<string>>)

  /** What the graph task hands to the analyst: the first hit of each term, and the candidates. */
  datatype Coordinates = Coordinates(hits: seq<Hit>, candidates: seq<Hit>)

  datatype Reason = Fine | EmptyToolPlan | BudgetSkip | Timeout | Error

  datatype Status = Placeholder | Ended(reason: Reason)

  datatype GraphTask = NoGraph | GraphReady | Finding(slots: seq<Slot>) | Expanding(slots: seq<Slot>) | GraphOver

  /** `before` holds the comparison that came back first, if there was one; `calls` all calls made. */
  datatype AnalystTask =
    | NoAnalyst | AnalystReady | Single(slot: Slot) | Analysing(slots: seq<Slot>, before: seq<Slot>) | AnalystOver(calls: seq<Slot>)

  datatype IndexTask = NoIndex | IndexReady | IndexCalling(slot: Slot) | IndexOver(slot: Slot)

  /** `orphans` are calls nobody awaits any more: their gather has already failed. `read` is what
      the analyst saw when it began. */
  datatype State = State(
    graph: GraphTask, orphans: seq<Slot>, analyst: AnalystTask, index: IndexTask,
    coordinates: Coordinates, coordsReady: bool, read: Option<Coordinates>,
    log: seq<Record>, status: map<Agent, Status>)

  const NOTHING_FOUND := Coordinates([], [])

  function Start(plan: Plan): State {
    State(
      if GraphQuery in plan.agents then GraphReady else NoGraph, [],
      if CodeAnalyst in plan.agents then AnalystReady else NoAnalyst,
      if Indexer in plan.agents then IndexReady else NoIndex,
      NOTHING_FOUND, GraphQuery !in plan.agents, None, [],
      map a | a in plan.agents :: Placeholder)
  }

  predicate Finished(s: State) {
    (s.graph.NoGraph? || s.graph.GraphOver?) && (s.analyst.NoAnalyst? || s.analyst.AnalystOver?)
    && (s.index.NoIndex? || s.index.IndexOver?)
  }

  function GraphTools(plan: Plan): Tools {
    ToolPlan(plan.intent, GraphQuery, plan.query)
  }

  function Restricted(tools: seq<string>, kept: set<string>): seq<string> {
    if tools == [] then []
    else (if tools[0] in kept then [tools[0]] else []) + Restricted(tools[1..], kept)
  }

  /** The analyst's tools; a refinement round may retry only some of them. */
  function AnalystTools(plan: Plan): seq<string> {
    var parallel := ToolPlan(plan.intent, CodeAnalyst, plan.query).parallel;
    if plan.iteration > 1 && plan.retryTools.Some? then Restricted(parallel, plan.retryTools.value) else parallel
  }

  predicate MustWait(plan: Plan) {
    GraphQuery in plan.agents && !CanStartNow(plan.intent, plan.query)
  }

  // ---------------------------------------------------------------------------
  // Steps.
  // ---------------------------------------------------------------------------

  datatype Step =
    | GraphBegin
    | GraphCall(i: nat, move: Move)
    | GraphFound(found: Coordinates)
    | GraphFails(i: nat)
    | GraphExpanded
    | OrphanCall(i: nat, move: Move)
    | AnalystBegin
    | AnalystCall(i: nat, move: Move)
    | AnalystCompared
    | AnalystEnds
    | IndexBegin
    | IndexCall(move: Move)
    | IndexEnds

  function ToolsOf(calls: seq<Call>): (tools: seq<string>)
    ensures |tools| == |calls| && forall i :: 0 <= i < |tools| ==> tools[i] == calls[i].tool
  {
    seq(|calls|, i requires 0 <= i < |calls| => calls[i].tool)
  }

  /** The tools of the relationship calls for what was found. */
  function Relations(plan: Plan, found: Coordinates): (tools: seq<string>)
    ensures forall tool :: tool in tools ==> tool in GraphTools(plan).parallel
    ensures plan.outOfScope || plan.terms == [] ==> tools == []
  {
    var names := RelationNames(found.candidates, plan.terms, found.hits);
    var asked := NameTools(GraphTools(plan).parallel, plan.relatedType);
    RelationCallsExactly(asked, names, |names|);
    if plan.outOfScope || plan.terms == [] then [] else ToolsOf(RelationCallsOf(asked, names, |names|))
  }

  /** The tools of the analyst's calls for what it has read. */
  function Analyses(plan: Plan, read: Coordinates): (tools: seq<string>)
    ensures forall tool :: tool in tools ==> tool in AnalystTools(plan) && tool !in {"find_patterns", "compare_implementations"}
  {
    ToolsOf(AnalysisCallsOf(AnalystTools(plan), Looked(read.candidates, read.hits, plan.outOfScope, plan.iteration),
                            Entities(plan.entities, read.candidates, read.hits, plan.outOfScope), read.hits))
  }

  predicate TwoEntities(plan: Plan, read: Coordinates) {
    |Entities(plan.entities, read.candidates, read.hits, plan.outOfScope)| >= 2
  }

  predicate Enabled(plan: Plan, s: State, step: Step) {
    match step
    case GraphBegin => s.graph.GraphReady?
    case GraphCall(i, move) =>
      (s.graph.Finding? || s.graph.Expanding?) && i < |s.graph.slots| && CanMove(s.graph.slots[i], move)
    case GraphFound(found) =>
      s.graph.Finding? && AllBack(s.graph.slots) && |found.hits| == |s.graph.slots|
      && |found.candidates| <= (if plan.outOfScope then 0 else CandidateLimit(plan.iteration))
      && (plan.outOfScope ==> forall hit :: hit in found.hits ==> hit == NO_HIT)
    case GraphFails(i) => s.graph.Finding? && i < |s.graph.slots| && s.graph.slots[i].state.Failed?
    case GraphExpanded => s.graph.Expanding? && Settled(s.graph.slots)
    case OrphanCall(i, move) => i < |s.orphans| && CanMove(s.orphans[i], move)
    case AnalystBegin => s.analyst.AnalystReady? && (MustWait(plan) ==> s.coordsReady)
    case AnalystCall(i, move) =>
      (s.analyst.Single? && i == 0 && CanMove(s.analyst.slot, move))
      || (s.analyst.Analysing? && i < |s.analyst.slots| && CanMove(s.analyst.slots[i], move))
    case AnalystCompared =>
      s.analyst.Single? && s.analyst.slot.tool == "compare_implementations" && s.analyst.slot.state.Back?
    case AnalystEnds =>
      (s.analyst.Single? && (s.analyst.slot.state.Failed?
                             || (s.analyst.slot.state.Back? && s.analyst.slot.tool == "find_patterns")))
      || (s.analyst.Analysing? && Settled(s.analyst.slots))
    case IndexBegin => s.index.IndexReady?
    case IndexCall(move) => s.index.IndexCalling? && CanMove(s.index.slot, move)
    case IndexEnds => s.index.IndexCalling? && (s.index.slot.state.Back? || s.index.slot.state.Failed?)
  }

  function ReasonOf(why: Failure): Reason {
    match why
    case Skipped => BudgetSkip
    case TimedOut => Timeout
    case Raised => Error
  }

  /** A task's last step: its status; for the graph task also both events. */
  function EndGraph(s: State, reason: Reason): State {
    s.(graph := GraphOver, coordsReady := true, status := s.status[GraphQuery := Ended(reason)])
  }

  function EndAnalyst(s: State, reason: Reason, calls: seq<Slot>): State {
    s.(analyst := AnalystOver(calls), status := s.status[CodeAnalyst := Ended(reason)])
  }

  function BeginGraph(plan: Plan, s: State): State {
    var tools := GraphTools(plan);
    if tools.first == [] && tools.parallel == [] then EndGraph(s, EmptyToolPlan)
    else if "find_entity" in tools.first && plan.terms == [] then EndGraph(s, Fine)
    else s.(graph := Finding(Fresh(seq(if "find_entity" in tools.first then |plan.terms| else 0, _ => "find_entity"))))
  }

  function BeginAnalyst(plan: Plan, s: State): State {
    var parallel := AnalystTools(plan);
    var begun := s.(read := Some(s.coordinates));
    if parallel == [] then EndAnalyst(begun, if plan.iteration > 1 then Fine else EmptyToolPlan, [])
    else if "find_patterns" in parallel then begun.(analyst := Single(Slot("find_patterns", Waiting)))
    else if "compare_implementations" in parallel then
      if TwoEntities(plan, s.coordinates) then begun.(analyst := Single(Slot("compare_implementations", Waiting))) else EndAnalyst(begun, Fine, [])
    else begun.(analyst := Analysing(Fresh(Analyses(plan, s.coordinates)), []))
  }

  function AnalystReason(t: AnalystTask): Reason
    requires t.Single? || t.Analysing?
  {
    if t.Single? then (if t.slot.state.Failed? then ReasonOf(t.slot.state.why) else Fine)
    else if t.slots != [] && AllFailed(t.slots) && t.before == [] then Timeout
    else Fine
  }

  function CallsMade(t: AnalystTask): seq<Slot>
    requires t.Single? || t.Analysing?
  {
    if t.Single? then [t.slot] else t.before + t.slots
  }

  function Apply(plan: Plan, s: State, step: Step): State
    requires Enabled(plan, s, step)
  {
    match step
    case GraphBegin => BeginGraph(plan, s)
    case GraphCall(i, move) =>
      var slot := s.graph.slots[i];
      s.(graph := s.graph.(slots := s.graph.slots[i := Moved(slot, move)]), log := s.log + Recorded(GraphQuery, slot, move))
    case GraphFound(found) =>
      var relations := Relations(plan, found);
      var ready := s.(coordinates := found, coordsReady := true);
      if relations == [] then EndGraph(ready, Fine) else ready.(graph := Expanding(Fresh(relations)))
    case GraphFails(i) => EndGraph(s, ReasonOf(s.graph.slots[i].state.why)).(orphans := s.orphans + s.graph.slots)
    case GraphExpanded => EndGraph(s, Fine)
    case OrphanCall(i, move) =>
      s.(orphans := s.orphans[i := Moved(s.orphans[i], move)], log := s.log + Recorded(GraphQuery, s.orphans[i], move))
    case AnalystBegin => BeginAnalyst(plan, s)
    case AnalystCall(i, move) =>
      if s.analyst.Single? then
        s.(analyst := Single(Moved(s.analyst.slot, move)), log := s.log + Recorded(CodeAnalyst, s.analyst.slot, move))
      else
        var slot := s.analyst.slots[i];
        s.(analyst := s.analyst.(slots := s.analyst.slots[i := Moved(slot, move)]),
           log := s.log + Recorded(CodeAnalyst, slot, move))
    case AnalystCompared => s.(analyst := Analysing(Fresh(Analyses(plan, s.coordinates)), [s.analyst.slot]))
    case AnalystEnds => EndAnalyst(s, AnalystReason(s.analyst), CallsMade(s.analyst))
    case IndexBegin => s.(index := IndexCalling(Slot("index_repository", Waiting)))
    case IndexCall(move) =>
      s.(index := IndexCalling(Moved(s.index.slot, move)), log := s.log + Recorded(Indexer, s.index.slot, move))
    case IndexEnds =>
      var state := s.index.slot.state;
      s.(index := IndexOver(s.index.slot), status := s.status[Indexer := Ended(if state.Failed? then ReasonOf(state.why) else Fine)])
  }

  ghost predicate Runs(plan: Plan, states: seq<State>, steps: seq<Step>) {
    |states| == |steps| + 1 && states[0] == Start(plan)
    && forall i :: 0 <= i < |steps| ==> Enabled(plan, states[i], steps[i]) && states[i + 1] == Apply(plan, states[i], steps[i])
  }

  // ---------------------------------------------------------------------------
  // Every run ends.
  // ---------------------------------------------------------------------------

  function Left(slot: Slot): nat {
    match slot.state
    case Waiting => 2
    case InFlight => 1
    case _ => 0
  }

  function Work(slots: seq<Slot>): nat {
    if slots == [] then 0 else Left(slots[0]) + Work(slots[1..])
  }

  lemma {:induction false} WorkAfterMove(slots: seq<Slot>, i: nat, slot: Slot)
    requires i < |slots|
    ensures Work(slots[i := slot]) == Work(slots) - Left(slots[i]) + Left(slot)
  {
    if i > 0 {
      WorkAfterMove(slots[1..], i - 1, slot);
      assert slots[i := slot][1..] == slots[1..][i - 1 := slot];
    }
  }

  lemma {:induction false} WorkOfFresh(slots: seq<Slot>)
    requires forall slot :: slot in slots ==> slot.state == Waiting
    ensures Work(slots) == 2 * |slots|
  {
    if slots != [] {
      WorkOfFresh(slots[1..]);
    }
  }

  lemma {:induction false} WorkOfBoth(a: seq<Slot>, b: seq<Slot>)
    ensures Work(a + b) == Work(a) + Work(b)
  {
    if a == [] {
      assert a + b == b;
    } else {
      assert (a + b)[1..] == a[1..] + b;
      WorkOfBoth(a[1..], b);
    }
  }

  function Larger(a: nat, b: nat): nat {
    if a > b then a else b
  }

  /** Each name to expand costs at most one call of each relationship tool. */
  function RelationBound(plan: Plan): nat {
    4 * Larger(CandidateLimit(plan.iteration), |plan.terms|)
  }

  /** Each hit looked at, or each entity, costs at most three calls. */
  function AnalysisBound(plan: Plan): nat {
    3 * Larger(Larger(CandidateLimit(plan.iteration), |plan.terms|), |plan.entities|)
  }

  /** No more hits than terms, and no more candidates than the limit. */
  predicate HitsFit(plan: Plan, found: Coordinates) {
    |found.hits| <= |plan.terms| && |found.candidates| <= CandidateLimit(plan.iteration)
  }

  ghost predicate LookupsFit(plan: Plan, s: State) {
    HitsFit(plan, s.coordinates) && (s.graph.Finding? ==> |s.graph.slots| <= |plan.terms|)
  }

  lemma RelationsAreBounded(plan: Plan, found: Coordinates)
    requires HitsFit(plan, found)
    ensures |Relations(plan, found)| <= RelationBound(plan)
  {
    var names := RelationNames(found.candidates, plan.terms, found.hits);
    var asked := NameTools(GraphTools(plan).parallel, plan.relatedType);
    hide RelationCallsOf, NameTools;
    assert |asked| * |names| <= 4 * |names| by {
      LessTimes(|asked|, 4, |names|);
    }
  }

  lemma LessTimes(a: nat, b: nat, c: nat)
    requires a <= b
    ensures a * c <= b * c
  {
  }

  lemma AnalysesAreBounded(plan: Plan, read: Coordinates)
    requires HitsFit(plan, read)
    ensures |Analyses(plan, read)| <= AnalysisBound(plan)
  {
    var looked := Looked(read.candidates, read.hits, plan.outOfScope, plan.iteration);
    var entities := Entities(plan.entities, read.candidates, read.hits, plan.outOfScope);
    AnalysisIsBounded(AnalystTools(plan), looked, entities, read.hits);
    hide AnalysisCallsOf, AnalystTools, Found;
  }

  function GraphPotential(plan: Plan, t: GraphTask): nat {
    match t
    case GraphReady => 2 * |plan.terms| + 2 * RelationBound(plan) + 3
    case Finding(slots) => Work(slots) + 2 * RelationBound(plan) + 2
    case Expanding(slots) => Work(slots) + 1
    case _ => 0
  }

  function AnalystPotential(plan: Plan, t: AnalystTask): nat {
    match t
    case AnalystReady => 2 * AnalysisBound(plan) + 5
    case Single(slot) => Left(slot) + 2 * AnalysisBound(plan) + 2
    case Analysing(slots, _) => Work(slots) + 1
    case _ => 0
  }

  function IndexPotential(t: IndexTask): nat {
    match t
    case IndexReady => 4
    case IndexCalling(slot) => Left(slot) + 1
    case _ => 0
  }

  function Potential(plan: Plan, s: State): nat {
    GraphPotential(plan, s.graph) + Work(s.orphans) + AnalystPotential(plan, s.analyst) + IndexPotential(s.index)
  }

  lemma GraphBeginUsesPotential(plan: Plan, s: State)
    requires s.graph.GraphReady?
    ensures Potential(plan, BeginGraph(plan, s)) < Potential(plan, s)
  {
    hide ToolPlan, Work, AnalystPotential, IndexPotential, RelationBound;
    WorkOfFresh(Fresh(seq(|plan.terms|, _ => "find_entity")));
    WorkOfFresh(Fresh(seq(0, _ => "find_entity")));
  }

  lemma AnalystBeginUsesPotential(plan: Plan, s: State)
    requires s.analyst.AnalystReady? && LookupsFit(plan, s)
    ensures Potential(plan, BeginAnalyst(plan, s)) < Potential(plan, s)
  {
    hide ToolPlan, AnalystTools, Work, GraphPotential, IndexPotential, Analyses, AnalysisBound, HitsFit;
    WorkOfFresh(Fresh(Analyses(plan, s.coordinates)));
    AnalysesAreBounded(plan, s.coordinates);
  }

  lemma CallUsesPotential(plan: Plan, s: State, step: Step)
    requires Enabled(plan, s, step) && (step.GraphCall? || step.OrphanCall? || step.AnalystCall? || step.IndexCall?)
    ensures Potential(plan, Apply(plan, s, step)) < Potential(plan, s)
  {
    if step.GraphCall? {
      WorkAfterMove(s.graph.slots, step.i, Moved(s.graph.slots[step.i], step.move));
    } else if step.OrphanCall? {
      WorkAfterMove(s.orphans, step.i, Moved(s.orphans[step.i], step.move));
    } else if step.AnalystCall? && s.analyst.Analysing? {
      WorkAfterMove(s.analyst.slots, step.i, Moved(s.analyst.slots[step.i], step.move));
    }
  }

  lemma StepKeepsLookups(plan: Plan, s: State, step: Step)
    requires Enabled(plan, s, step) && LookupsFit(plan, s)
    ensures LookupsFit(plan, Apply(plan, s, step))
  {
    hide ToolPlan, Relations, Analyses, AnalystTools;
  }

  lemma FoundUsesPotential(plan: Plan, s: State, found: Coordinates)
    requires Enabled(plan, s, GraphFound(found)) && LookupsFit(plan, s)
    ensures Potential(plan, Apply(plan, s, GraphFound(found))) < Potential(plan, s)
  {
    hide ToolPlan, Relations, RelationBound, AnalystPotential, IndexPotential, Analyses;
    RelationsAreBounded(plan, found);
    WorkOfFresh(Fresh(Relations(plan, found)));
  }

  lemma ComparedUsesPotential(plan: Plan, s: State)
    requires Enabled(plan, s, AnalystCompared) && LookupsFit(plan, s)
    ensures Potential(plan, Apply(plan, s, AnalystCompared)) < Potential(plan, s)
  {
    hide ToolPlan, Relations, AnalysisBound, GraphPotential, IndexPotential, Analyses;
    AnalysesAreBounded(plan, s.coordinates);
    WorkOfFresh(Fresh(Analyses(plan, s.coordinates)));
  }

  lemma StepUsesPotential(plan: Plan, s: State, step: Step)
    requires Enabled(plan, s, step) && LookupsFit(plan, s)
    ensures Potential(plan, Apply(plan, s, step)) < Potential(plan, s)
  {
    match step {
      case GraphBegin => GraphBeginUsesPotential(plan, s);
      case GraphCall(_, _) => CallUsesPotential(plan, s, step);
      case GraphFound(found) => FoundUsesPotential(plan, s, found);
      case GraphFails(_) => WorkOfBoth(s.orphans, s.graph.slots);
      case GraphExpanded =>
      case OrphanCall(_, _) => CallUsesPotential(plan, s, step);
      case AnalystBegin => AnalystBeginUsesPotential(plan, s);
      case AnalystCall(_, _) => CallUsesPotential(plan, s, step);
      case AnalystCompared => ComparedUsesPotential(plan, s);
      case AnalystEnds =>
      case IndexBegin =>
      case IndexCall(_) => CallUsesPotential(plan, s, step);
      case IndexEnds =>
    }
  }

  /** No run is longer than the plan's terms, entities and candidate limit allow. */
  lemma {:induction false} RunsAreBounded(plan: Plan, states: seq<State>, steps: seq<Step>, n: nat)
    requires Runs(plan, states, steps) && n <= |steps|
    ensures n + Potential(plan, states[n]) <= 2 * |plan.terms| + 2 * RelationBound(plan) + 2 * AnalysisBound(plan) + 12
    ensures LookupsFit(plan, states[n])
  {
    if n > 0 {
      RunsAreBounded(plan, states, steps, n - 1);
      StepKeepsLookups(plan, states[n - 1], steps[n - 1]);
      StepUsesPotential(plan, states[n - 1], steps[n - 1]);
    }
  }

  // ---------------------------------------------------------------------------
  // What every reachable state satisfies.
  // ---------------------------------------------------------------------------

  ghost predicate Phases(plan: Plan, s: State) {
    && (s.graph.NoGraph? <==> GraphQuery !in plan.agents)
    && (s.analyst.NoAnalyst? <==> CodeAnalyst !in plan.agents)
    && (s.index.NoIndex? <==> Indexer !in plan.agents)
    && (s.coordsReady <==> s.graph.NoGraph? || s.graph.Expanding? || s.graph.GraphOver?)
    && (s.read.None? <==> s.analyst.NoAnalyst? || s.analyst.AnalystReady?)
    && (s.analyst.Single? ==> s.analyst.slot.tool in {"find_patterns", "compare_implementations"})
  }

  ghost predicate Statuses(plan: Plan, s: State) {
    && s.status.Keys == plan.agents
    && (s.graph.GraphOver? ==> GraphQuery in s.status && s.status[GraphQuery].Ended?)
    && (s.analyst.AnalystOver? ==> CodeAnalyst in s.status && s.status[CodeAnalyst].Ended?)
    && (s.index.IndexOver? ==> Indexer in s.status && s.status[Indexer].Ended?)
  }

  /** What the analyst has read is what is there. */
  ghost predicate ReadsAreFinal(plan: Plan, s: State) {
    && (!s.coordsReady ==> s.coordinates == NOTHING_FOUND)
    && (s.read.Some? && MustWait(plan) ==> s.coordsReady)
    && (CanStartNow(plan.intent, plan.query) ==>
          s.coordinates == NOTHING_FOUND && !s.graph.Finding? && !s.graph.Expanding?)
    && (s.read.Some? ==> s.read.value == s.coordinates)
  }

  /** Statuses say what happened. The graph task is degraded exactly when it had no tools or a
      lookup of its failed; the analyst exactly when it had no tools in the first round or none
      of the calls it made came back; the indexer exactly when its call failed. */
  ghost predicate StatusesAreHonest(plan: Plan, s: State) {
    GraphIsHonest(plan, s) && AnalystIsHonest(plan, s) && IndexIsHonest(s)
  }

  ghost predicate GraphIsHonest(plan: Plan, s: State) {
    && (s.graph.Finding? || s.graph.Expanding? ==> GraphTools(plan) != NO_TOOLS)
    && (!s.graph.GraphOver? ==> s.orphans == [])
    && (s.graph.GraphOver? && GraphQuery in s.status ==>
          && (s.status[GraphQuery] == Ended(EmptyToolPlan) <==> GraphTools(plan) == NO_TOOLS)
          && (s.status[GraphQuery] == Ended(Fine) <==> GraphTools(plan) != NO_TOOLS && s.orphans == [])
          && (s.orphans != [] ==> exists i :: 0 <= i < |s.orphans| && s.orphans[i].state.Failed?
                                              && s.status[GraphQuery] == Ended(ReasonOf(s.orphans[i].state.why))))
  }

  ghost predicate AnalystIsHonest(plan: Plan, s: State) {
    && (s.analyst.Single? || s.analyst.Analysing? ==> AnalystTools(plan) != [])
    && (s.analyst.Analysing? ==> AllBack(s.analyst.before))
    && (s.analyst.AnalystOver? && CodeAnalyst in s.status ==>
          && (s.status[CodeAnalyst] == Ended(EmptyToolPlan) <==> AnalystTools(plan) == [] && plan.iteration <= 1)
          && (s.status[CodeAnalyst] == Ended(Fine) <==>
                s.status[CodeAnalyst] != Ended(EmptyToolPlan) && (s.analyst.calls == [] || !AllFailed(s.analyst.calls))))
  }

  lemma GraphStepIsHonest(plan: Plan, s: State, step: Step)
    requires Enabled(plan, s, step) && Phases(plan, s) && GraphIsHonest(plan, s)
    requires step.GraphBegin? || step.GraphCall? || step.GraphFound? || step.GraphFails? || step.GraphExpanded? || step.OrphanCall?
    ensures GraphIsHonest(plan, Apply(plan, s, step))
  {
    hide ToolPlan;
    var t := Apply(plan, s, step);
    if step.OrphanCall? && GraphQuery in s.status {
      var i :| 0 <= i < |s.orphans| && s.orphans[i].state.Failed?
               && s.status[GraphQuery] == Ended(ReasonOf(s.orphans[i].state.why));
      assert t.orphans[i] == s.orphans[i];
    } else if step.GraphFails? {
      assert t.orphans[step.i] == s.graph.slots[step.i];
    }
  }

  lemma CallsDecideTheReason(t: AnalystTask)
    requires t.Single? || (t.Analysing? && AllBack(t.before) && Settled(t.slots))
    requires t.Single? ==> t.slot.state.Failed? || t.slot.state.Back?
    ensures AnalystReason(t) != EmptyToolPlan
    ensures AnalystReason(t) == Fine <==> CallsMade(t) == [] || !AllFailed(CallsMade(t))
  {
    if t.Single? {
      assert CallsMade(t)[0] == t.slot;
    } else if t.before == [] {
      assert CallsMade(t) == t.slots;
    } else {
      assert CallsMade(t)[0] == t.before[0];
    }
  }

  lemma AnalystStepIsHonest(plan: Plan, s: State, step: Step)
    requires Enabled(plan, s, step) && Phases(plan, s) && AnalystIsHonest(plan, s)
    requires step.AnalystBegin? || step.AnalystCall? || step.AnalystCompared? || step.AnalystEnds?
    ensures AnalystIsHonest(plan, Apply(plan, s, step))
  {
    hide AnalystTools;
    if step.AnalystEnds? {
      CallsDecideTheReason(s.analyst);
      hide AnalystReason, CallsMade, AllBack, AllFailed, Settled;
    }
  }

  lemma StepKeepsPhases(plan: Plan, s: State, step: Step)
    requires Enabled(plan, s, step) && Phases(plan, s)
    ensures Phases(plan, Apply(plan, s, step))
  {
    hide ToolPlan, GraphTools, AnalystTools, Relations, Analyses, TwoEntities, CandidateLimit;
  }

  lemma StepKeepsStatuses(plan: Plan, s: State, step: Step)
    requires Enabled(plan, s, step) && Phases(plan, s) && Statuses(plan, s)
    ensures Statuses(plan, Apply(plan, s, step))
  {
    hide ToolPlan, GraphTools, AnalystTools, Relations, Analyses, TwoEntities, CandidateLimit;
  }

  lemma StepKeepsReads(plan: Plan, s: State, step: Step)
    requires Enabled(plan, s, step) && Phases(plan, s) && ReadsAreFinal(plan, s)
    ensures ReadsAreFinal(plan, Apply(plan, s, step))
  {
    if CanStartNow(plan.intent, plan.query) {
      NoGraphWorkWhenEarly(plan.intent, plan.query);
    }
  }

  predicate IsGraphStep(step: Step) {
    step.GraphBegin? || step.GraphCall? || step.GraphFound? || step.GraphFails? || step.GraphExpanded? || step.OrphanCall?
  }

  predicate IsAnalystStep(step: Step) {
    step.AnalystBegin? || step.AnalystCall? || step.AnalystCompared? || step.AnalystEnds?
  }

  predicate SameStatus(s: State, t: State, agent: Agent) {
    (agent in s.status <==> agent in t.status) && (agent in s.status ==> t.status[agent] == s.status[agent])
  }

  /** A step of one task leaves the others and what is said of them. */
  lemma TasksAreSeparate(plan: Plan, s: State, step: Step)
    requires Enabled(plan, s, step)
    ensures var t := Apply(plan, s, step);
            && (!IsGraphStep(step) ==> t.graph == s.graph && t.orphans == s.orphans && SameStatus(s, t, GraphQuery))
            && (!IsAnalystStep(step) ==> t.analyst == s.analyst && SameStatus(s, t, CodeAnalyst))
            && (IsGraphStep(step) || IsAnalystStep(step) ==> t.index == s.index && SameStatus(s, t, Indexer))
  {
    hide ToolPlan, GraphTools, AnalystTools, Relations, Analyses, TwoEntities, CandidateLimit;
  }

  lemma StepIsHonest(plan: Plan, s: State, step: Step)
    requires Enabled(plan, s, step) && Phases(plan, s) && StatusesAreHonest(plan, s)
    ensures StatusesAreHonest(plan, Apply(plan, s, step))
  {
    TasksAreSeparate(plan, s, step);
    if IsGraphStep(step) {
      GraphStepIsHonest(plan, s, step);
      hide Apply, Enabled, GraphIsHonest, GraphTools, AnalystTools, AllFailed, AllBack;
    } else if IsAnalystStep(step) {
      AnalystStepIsHonest(plan, s, step);
      hide Apply, Enabled, AnalystIsHonest, GraphTools, AnalystTools;
    } else {
      IndexStepIsHonest(plan, s, step);
      hide Apply, Enabled, GraphTools, AnalystTools, AllFailed, AllBack;
    }
  }

  ghost predicate IndexIsHonest(s: State) {
    s.index.IndexOver? && Indexer in s.status ==> (s.status[Indexer] == Ended(Fine) <==> s.index.slot.state.Back?)
  }

  lemma IndexStepIsHonest(plan: Plan, s: State, step: Step)
    requires Enabled(plan, s, step) && IndexIsHonest(s) && !IsGraphStep(step) && !IsAnalystStep(step)
    ensures IndexIsHonest(Apply(plan, s, step))
  {
  }

  lemma {:induction false} Reachable(plan: Plan, states: seq<State>, steps: seq<Step>, n: nat)
    requires Runs(plan, states, steps) && n <= |steps|
    ensures Phases(plan, states[n]) && Statuses(plan, states[n]) && ReadsAreFinal(plan, states[n])
    ensures StatusesAreHonest(plan, states[n])
  {
    if n > 0 {
      Reachable(plan, states, steps, n - 1);
      StepKeepsPhases(plan, states[n - 1], steps[n - 1]);
      StepKeepsStatuses(plan, states[n - 1], steps[n - 1]);
      StepKeepsReads(plan, states[n - 1], steps[n - 1]);
      StepIsHonest(plan, states[n - 1], steps[n - 1]);
      hide Phases, Statuses, ReadsAreFinal, StatusesAreHonest, Enabled, Apply;
    }
  }

  // ---------------------------------------------------------------------------
  // No deadlock.
  // ---------------------------------------------------------------------------

  lemma SlotsCanMove(slots: seq<Slot>) returns (i: nat, move: Move)
    requires !Settled(slots)
    ensures i < |slots| && CanMove(slots[i], move)
  {
    var slot :| slot in slots && !slot.state.Back? && !slot.state.Failed?;
    i :| i < |slots| && slots[i] == slot;
    move := if slot.state == Waiting then Issue else Return;
  }

  lemma GraphCanStep(plan: Plan, s: State) returns (step: Step)
    requires !s.graph.NoGraph? && !s.graph.GraphOver?
    ensures Enabled(plan, s, step)
  {
    if s.graph.GraphReady? {
      step := GraphBegin;
    } else if !Settled(s.graph.slots) {
      var i, move := SlotsCanMove(s.graph.slots);
      step := GraphCall(i, move);
    } else if s.graph.Expanding? {
      step := GraphExpanded;
    } else if AllBack(s.graph.slots) {
      step := GraphFound(Coordinates(seq(|s.graph.slots|, _ => NO_HIT), []));
    } else {
      var slot :| slot in s.graph.slots && !slot.state.Back?;
      var i: nat :| i < |s.graph.slots| && s.graph.slots[i] == slot;
      step := GraphFails(i);
    }
  }

  lemma AnalystCanStep(plan: Plan, s: State) returns (step: Step)
    requires Phases(plan, s) && !s.analyst.NoAnalyst? && !s.analyst.AnalystOver?
    requires s.graph.NoGraph? || s.graph.GraphOver?
    ensures Enabled(plan, s, step)
  {
    match s.analyst {
      case AnalystReady => step := AnalystBegin;
      case Single(slot) =>
        step := if slot.state == Waiting then AnalystCall(0, Issue)
                else if slot.state == InFlight then AnalystCall(0, Return)
                else if slot.state.Back? && slot.tool == "compare_implementations" then AnalystCompared
                else AnalystEnds;
      case Analysing(slots, _) =>
        if Settled(slots) {
          step := AnalystEnds;
        } else {
          var i, move := SlotsCanMove(slots);
          step := AnalystCall(i, move);
        }
    }
  }

  /** In every reachable state that is not the end, some task can go on. */
  lemma NoDeadlock(plan: Plan, states: seq<State>, steps: seq<Step>)
    requires Runs(plan, states, steps)
    ensures Finished(states[|steps|]) || exists step :: Enabled(plan, states[|steps|], step)
  {
    var s := states[|steps|];
    Reachable(plan, states, steps, |steps|);
    if !s.graph.NoGraph? && !s.graph.GraphOver? {
      var step := GraphCanStep(plan, s);
    } else if !s.analyst.NoAnalyst? && !s.analyst.AnalystOver? {
      var step := AnalystCanStep(plan, s);
    } else if s.index.IndexReady? {
      assert Enabled(plan, s, IndexBegin);
    } else if s.index.IndexCalling? {
      var state := s.index.slot.state;
      assert Enabled(plan, s, if state == Waiting then IndexCall(Issue) else if state == InFlight then IndexCall(Return) else IndexEnds);
    }
  }

  /** When the run is over every planned agent that has a task has a status of its own. */
  lemma EveryAgentEndsWithAStatus(plan: Plan, states: seq<State>, steps: seq<Step>, agent: Agent)
    requires Runs(plan, states, steps) && Finished(states[|steps|]) && agent in plan.agents
    ensures agent in states[|steps|].status
    ensures agent != Memory ==> states[|steps|].status[agent].Ended?
  {
    Reachable(plan, states, steps, |steps|);
  }

  /** And the status says what happened to the agent's calls. */
  lemma EveryStatusIsHonest(plan: Plan, states: seq<State>, steps: seq<Step>)
    requires Runs(plan, states, steps)
    ensures StatusesAreHonest(plan, states[|steps|])
  {
    Reachable(plan, states, steps, |steps|);
  }

  // ---------------------------------------------------------------------------
  // What the analyst reads.
  // ---------------------------------------------------------------------------

  lemma StepKeepsRead(plan: Plan, s: State, step: Step)
    requires Enabled(plan, s, step) && Phases(plan, s) && s.read.Some?
    ensures Apply(plan, s, step).read == s.read
  {
  }

  lemma {:induction false} ReadStays(plan: Plan, states: seq<State>, steps: seq<Step>, i: nat, j: nat)
    requires Runs(plan, states, steps) && i <= j <= |steps| && states[i].read.Some?
    ensures states[j].read == states[i].read
  {
    if i < j {
      ReadStays(plan, states, steps, i, j - 1);
      Reachable(plan, states, steps, j - 1);
      StepKeepsRead(plan, states[j - 1], steps[j - 1]);
      hide Apply, Enabled, Phases;
    }
  }

  /** Once the analyst has read the coordinates the graph task never writes them again: what it
      read is what stands at every later point. */
  lemma AnalystReadsAfterTheLastWrite(plan: Plan, states: seq<State>, steps: seq<Step>, i: nat, j: nat)
    requires Runs(plan, states, steps) && i <= j <= |steps| && states[i].read.Some?
    ensures states[j].coordinates == states[i].read.value
  {
    ReadStays(plan, states, steps, i, j);
    Reachable(plan, states, steps, j);
  }

  /** What the lookups of a run have found so far. */
  function FoundBy(steps: seq<Step>, n: nat): Coordinates
    requires n <= |steps|
  {
    if n == 0 then NOTHING_FOUND else if steps[n - 1].GraphFound? then steps[n - 1].found else FoundBy(steps, n - 1)
  }

  /** The coordinates are what the lookups found, and they are found at most once. */
  lemma {:induction false} CoordinatesAreWhatWasFound(plan: Plan, states: seq<State>, steps: seq<Step>, n: nat)
    requires Runs(plan, states, steps) && n <= |steps|
    ensures states[n].coordinates == FoundBy(steps, n)
    ensures forall i, j :: 0 <= i < j < n && steps[i].GraphFound? ==> !steps[j].GraphFound?
    ensures (exists i :: 0 <= i < n && steps[i].GraphFound?) ==> states[n].graph.Expanding? || states[n].graph.GraphOver?
  {
    if n > 0 {
      CoordinatesAreWhatWasFound(plan, states, steps, n - 1);
      FindingEndsOnce(plan, states[n - 1], steps[n - 1]);
      hide Apply, Enabled;
    }
  }

  lemma FindingEndsOnce(plan: Plan, s: State, step: Step)
    requires Enabled(plan, s, step)
    ensures var t := Apply(plan, s, step);
            && t.coordinates == (if step.GraphFound? then step.found else s.coordinates)
            && (step.GraphFound? ==> s.graph.Finding? && (t.graph.Expanding? || t.graph.GraphOver?))
            && (s.graph.Expanding? || s.graph.GraphOver? ==> t.graph.Expanding? || t.graph.GraphOver?)
  {
  }

  /** When the analyst need not wait, the graph task writes no coordinates in the whole run. */
  lemma NothingIsWrittenUnderAnEarlyStart(plan: Plan, states: seq<State>, steps: seq<Step>, n: nat)
    requires Runs(plan, states, steps) && n <= |steps| && CanStartNow(plan.intent, plan.query)
    ensures states[n].coordinates == NOTHING_FOUND
  {
    Reachable(plan, states, steps, n);
  }

  // ---------------------------------------------------------------------------
  // Tools on record.
  // ---------------------------------------------------------------------------

  predicate Planned(plan: Plan, record: Record) {
    match record.agent
    case GraphQuery => record.tool in GraphTools(plan).first || record.tool in GraphTools(plan).parallel
    case CodeAnalyst => record.tool in AnalystTools(plan)
    case Indexer => record.tool == "index_repository"
    case Memory => false
  }

  predicate AllPlanned(plan: Plan, agent: Agent, slots: seq<Slot>) {
    forall slot :: slot in slots ==> Planned(plan, Record(agent, slot.tool))
  }

  /** Only tools of an agent's plan are called for it, awaited or not. */
  ghost predicate ToolsArePlanned(plan: Plan, s: State) {
    && (s.graph.Finding? || s.graph.Expanding? ==> AllPlanned(plan, GraphQuery, s.graph.slots))
    && AllPlanned(plan, GraphQuery, s.orphans)
    && (s.analyst.Single? ==> Planned(plan, Record(CodeAnalyst, s.analyst.slot.tool)))
    && (s.analyst.Analysing? ==> AllPlanned(plan, CodeAnalyst, s.analyst.slots))
    && (s.index.IndexCalling? ==> s.index.slot.tool == "index_repository")
    && forall record :: record in s.log ==> Planned(plan, record)
  }

  lemma GraphToolsStayPlanned(plan: Plan, s: State, step: Step)
    requires Enabled(plan, s, step) && ToolsArePlanned(plan, s)
    ensures var t := Apply(plan, s, step);
            && (t.graph.Finding? || t.graph.Expanding? ==> AllPlanned(plan, GraphQuery, t.graph.slots))
            && AllPlanned(plan, GraphQuery, t.orphans)
  {
    hide ToolPlan, GraphTools, AnalystTools, Relations, Analyses, TwoEntities, CandidateLimit;
  }

  lemma AnalystToolsStayPlanned(plan: Plan, s: State, step: Step)
    requires Enabled(plan, s, step) && ToolsArePlanned(plan, s)
    ensures var t := Apply(plan, s, step);
            && (t.analyst.Single? ==> Planned(plan, Record(CodeAnalyst, t.analyst.slot.tool)))
            && (t.analyst.Analysing? ==> AllPlanned(plan, CodeAnalyst, t.analyst.slots))
            && (t.index.IndexCalling? ==> t.index.slot.tool == "index_repository")
  {
    hide ToolPlan, GraphTools, AnalystTools, Relations, Analyses, TwoEntities, CandidateLimit;
  }

  lemma RecordedToolsArePlanned(plan: Plan, s: State, step: Step)
    requires Enabled(plan, s, step) && ToolsArePlanned(plan, s)
    ensures forall record :: record in Apply(plan, s, step).log ==> Planned(plan, record)
  {
    hide ToolPlan, GraphTools, AnalystTools, Relations, Analyses, TwoEntities, CandidateLimit;
  }

  lemma StepKeepsToolsPlanned(plan: Plan, s: State, step: Step)
    requires Enabled(plan, s, step) && ToolsArePlanned(plan, s)
    ensures ToolsArePlanned(plan, Apply(plan, s, step))
  {
    GraphToolsStayPlanned(plan, s, step);
    AnalystToolsStayPlanned(plan, s, step);
    RecordedToolsArePlanned(plan, s, step);
    hide Apply, Enabled, Planned, AllPlanned;
  }

  lemma {:induction false} OnlyPlannedToolsAreRecorded(plan: Plan, states: seq<State>, steps: seq<Step>, n: nat)
    requires Runs(plan, states, steps) && n <= |steps|
    ensures ToolsArePlanned(plan, states[n])
  {
    if n > 0 {
      OnlyPlannedToolsAreRecorded(plan, states, steps, n - 1);
      StepKeepsToolsPlanned(plan, states[n - 1], steps[n - 1]);
    }
  }

  predicate WasIssued(slot: Slot) {
    slot.state.InFlight? || slot.state.Back? || (slot.state.Failed? && slot.state.why != Skipped)
  }

  ghost predicate IssuedAreRecorded(agent: Agent, slots: seq<Slot>, log: seq<Record>) {
    forall slot :: slot in slots && WasIssued(slot) ==> Record(agent, slot.tool) in log
  }

  function AnalystCalls(t: AnalystTask): seq<Slot> {
    match t
    case Single(slot) => [slot]
    case Analysing(slots, before) => before + slots
    case AnalystOver(calls) => calls
    case _ => []
  }

  function GraphCalls(s: State): seq<Slot> {
    s.orphans + if s.graph.Finding? || s.graph.Expanding? then s.graph.slots else []
  }

  function IndexCalls(t: IndexTask): seq<Slot> {
    if t.IndexCalling? || t.IndexOver? then [t.slot] else []
  }

  /** Every call that went out is on record, abandoned ones included. */
  ghost predicate CallsAreOnRecord(s: State) {
    && IssuedAreRecorded(GraphQuery, GraphCalls(s), s.log)
    && IssuedAreRecorded(CodeAnalyst, AnalystCalls(s.analyst), s.log)
    && IssuedAreRecorded(Indexer, IndexCalls(s.index), s.log)
  }

  lemma MovedIsRecorded(agent: Agent, slots: seq<Slot>, i: nat, move: Move, log: seq<Record>)
    requires i < |slots| && CanMove(slots[i], move) && IssuedAreRecorded(agent, slots, log)
    ensures IssuedAreRecorded(agent, slots[i := Moved(slots[i], move)], log + Recorded(agent, slots[i], move))
  {
    assert slots[i] in slots;
  }

  lemma RecordsStay(agent: Agent, slots: seq<Slot>, log: seq<Record>, more: seq<Record>)
    requires IssuedAreRecorded(agent, slots, log)
    ensures IssuedAreRecorded(agent, slots, log + more)
  {
  }

  /** A call step moves one call of one task and records it. */
  lemma GraphCallIsRecorded(plan: Plan, s: State, step: Step)
    requires Enabled(plan, s, step) && IssuedAreRecorded(GraphQuery, GraphCalls(s), s.log)
    requires step.GraphCall? || step.OrphanCall?
    ensures IssuedAreRecorded(GraphQuery, GraphCalls(Apply(plan, s, step)), Apply(plan, s, step).log)
  {
    var t := Apply(plan, s, step);
    if step.GraphCall? {
      var n, slots := |s.orphans|, s.graph.slots;
      MovedIsRecorded(GraphQuery, GraphCalls(s), n + step.i, step.move, s.log);
      assert GraphCalls(s)[n + step.i := Moved(slots[step.i], step.move)] == GraphCalls(t);
    } else {
      MovedIsRecorded(GraphQuery, GraphCalls(s), step.i, step.move, s.log);
      assert GraphCalls(s)[step.i := Moved(s.orphans[step.i], step.move)] == GraphCalls(t);
    }
  }

  /** Any other step adds no call that has already gone out. */
  lemma OtherGraphStepIssuesNothing(plan: Plan, s: State, step: Step)
    requires Enabled(plan, s, step) && IsGraphStep(step) && !step.GraphCall? && !step.OrphanCall?
    ensures var t := Apply(plan, s, step);
            t.log == s.log && forall slot :: slot in GraphCalls(t) && WasIssued(slot) ==> slot in GraphCalls(s)
  {
    hide ToolPlan, GraphTools, AnalystTools, Relations, Analyses, TwoEntities, CandidateLimit;
  }

  lemma SameGraphCalls(plan: Plan, s: State, step: Step)
    requires Enabled(plan, s, step) && !IsGraphStep(step)
    ensures GraphCalls(Apply(plan, s, step)) == GraphCalls(s)
  {
    TasksAreSeparate(plan, s, step);
    hide Apply, Enabled;
  }

  lemma GraphKeepsRecord(plan: Plan, s: State, step: Step)
    requires Enabled(plan, s, step) && IssuedAreRecorded(GraphQuery, GraphCalls(s), s.log)
    ensures IssuedAreRecorded(GraphQuery, GraphCalls(Apply(plan, s, step)), Apply(plan, s, step).log)
  {
    var t := Apply(plan, s, step);
    hide Apply, Enabled, GraphCalls, WasIssued;
    if step.GraphCall? || step.OrphanCall? {
      GraphCallIsRecorded(plan, s, step);
    } else if IsGraphStep(step) {
      OtherGraphStepIssuesNothing(plan, s, step);
    } else {
      SameGraphCalls(plan, s, step);
      LogOnlyGrows(plan, s, step);
      RecordsStay(GraphQuery, GraphCalls(s), s.log, t.log[|s.log|..]);
      assert t.log == s.log + t.log[|s.log|..];
    }
  }

  lemma AnalystCallIsRecorded(plan: Plan, s: State, step: Step)
    requires Enabled(plan, s, step) && IssuedAreRecorded(CodeAnalyst, AnalystCalls(s.analyst), s.log)
    requires step.AnalystCall?
    ensures IssuedAreRecorded(CodeAnalyst, AnalystCalls(Apply(plan, s, step).analyst), Apply(plan, s, step).log)
  {
    var t, calls := Apply(plan, s, step), AnalystCalls(s.analyst);
    var k := if s.analyst.Single? then 0 else |s.analyst.before| + step.i;
    MovedIsRecorded(CodeAnalyst, calls, k, step.move, s.log);
    assert calls[k := Moved(calls[k], step.move)] == AnalystCalls(t.analyst);
  }

  lemma OtherAnalystStepIssuesNothing(plan: Plan, s: State, step: Step)
    requires Enabled(plan, s, step) && IsAnalystStep(step) && !step.AnalystCall?
    ensures var t := Apply(plan, s, step);
            t.log == s.log && forall slot :: slot in AnalystCalls(t.analyst) && WasIssued(slot) ==> slot in AnalystCalls(s.analyst)
  {
    hide ToolPlan, GraphTools, AnalystTools, Relations, Analyses, TwoEntities, CandidateLimit;
  }

  lemma AnalystKeepsRecord(plan: Plan, s: State, step: Step)
    requires Enabled(plan, s, step) && IssuedAreRecorded(CodeAnalyst, AnalystCalls(s.analyst), s.log)
    ensures IssuedAreRecorded(CodeAnalyst, AnalystCalls(Apply(plan, s, step).analyst), Apply(plan, s, step).log)
  {
    var t := Apply(plan, s, step);
    hide Apply, Enabled, AnalystCalls, WasIssued;
    if step.AnalystCall? {
      AnalystCallIsRecorded(plan, s, step);
    } else if IsAnalystStep(step) {
      OtherAnalystStepIssuesNothing(plan, s, step);
    } else {
      TasksAreSeparate(plan, s, step);
      LogOnlyGrows(plan, s, step);
      RecordsStay(CodeAnalyst, AnalystCalls(s.analyst), s.log, t.log[|s.log|..]);
      assert t.log == s.log + t.log[|s.log|..];
    }
  }

  lemma IndexKeepsRecord(plan: Plan, s: State, step: Step)
    requires Enabled(plan, s, step) && IssuedAreRecorded(Indexer, IndexCalls(s.index), s.log)
    ensures IssuedAreRecorded(Indexer, IndexCalls(Apply(plan, s, step).index), Apply(plan, s, step).log)
  {
    var t := Apply(plan, s, step);
    if step.IndexCall? {
      MovedIsRecorded(Indexer, [s.index.slot], 0, step.move, s.log);
      assert [s.index.slot][0 := Moved(s.index.slot, step.move)] == IndexCalls(t.index);
    } else if IsGraphStep(step) || IsAnalystStep(step) {
      TasksAreSeparate(plan, s, step);
      LogOnlyGrows(plan, s, step);
      RecordsStay(Indexer, IndexCalls(s.index), s.log, t.log[|s.log|..]);
      assert t.log == s.log + t.log[|s.log|..];
      hide Apply, Enabled;
    }
  }

  lemma LogOnlyGrows(plan: Plan, s: State, step: Step)
    requires Enabled(plan, s, step)
    ensures s.log <= Apply(plan, s, step).log
  {
    hide ToolPlan, GraphTools, AnalystTools, Relations, Analyses, TwoEntities, CandidateLimit;
  }

  lemma {:induction false} EveryIssuedCallIsRecorded(plan: Plan, states: seq<State>, steps: seq<Step>, n: nat)
    requires Runs(plan, states, steps) && n <= |steps|
    ensures CallsAreOnRecord(states[n])
  {
    if n > 0 {
      EveryIssuedCallIsRecorded(plan, states, steps, n - 1);
      GraphKeepsRecord(plan, states[n - 1], steps[n - 1]);
      AnalystKeepsRecord(plan, states[n - 1], steps[n - 1]);
      IndexKeepsRecord(plan, states[n - 1], steps[n - 1]);
      hide Apply, Enabled, IssuedAreRecorded;
    }
  }

  function AgentName(agent: Agent): string {
    match agent
    case Indexer => "indexer"
    case GraphQuery => "graph_query"
    case CodeAnalyst => "code_analyst"
    case Memory => "memory"
  }

  /** An entry of `tools_invoked`. */
  function Entry(record: Record): string {
    AgentName(record.agent) + "." + record.tool
  }

  predicate StartsWith(text: string, prefix: string) {
    |prefix| <= |text| && text[..|prefix|] == prefix
  }

  lemma PrefixTellsTheAgent(record: Record, agent: Agent)
    ensures StartsWith(Entry(record), AgentName(agent) + ".") <==> record.agent == agent
  {
    var entry, prefix := Entry(record), AgentName(agent) + ".";
    var name := AgentName(record.agent);
    assert entry[|name|] == '.' && prefix[|prefix| - 1] == '.';
    assert entry[..|name|] == name;
    if record.agent == agent {
      assert entry[..|prefix|] == prefix;
    } else {
      assert name[0] != prefix[0];
      assert entry[0] == name[0];
    }
  }

  function Entries(log: seq<Record>): seq<string> {
    if log == [] then [] else Entries(log[..|log| - 1]) + [Entry(log[|log| - 1])]
  }

  function CallsOf(log: seq<Record>, agent: Agent): seq<Record> {
    if log == [] then []
    else CallsOf(log[..|log| - 1], agent) + if log[|log| - 1].agent == agent then [log[|log| - 1]] else []
  }

  /** The entries of `tools_invoked` under an agent's prefix. */
  method ToolsUnder(invoked: seq<string>, agent: Agent, ghost log: seq<Record>) returns (tools: seq<string>)
    requires invoked == Entries(log)
    ensures tools == Entries(CallsOf(log, agent))
  {
    tools := [];
    EntriesOneByOne(log);
    hide Entry, StartsWith, Entries;
    assert CallsOf(log[..0], agent) == [];
    EntriesOneByOne([]);
    for i := 0 to |invoked|
      invariant tools == Entries(CallsOf(log[..i], agent))
    {
      CallsOfNext(log, agent, i);
      PrefixTellsTheAgent(log[i], agent);
      EntriesAppend(CallsOf(log[..i], agent), log[i]);
      hide CallsOf;
      if StartsWith(invoked[i], AgentName(agent) + ".") {
        tools := tools + [invoked[i]];
      }
    }
    assert log[..|log|] == log;
  }

  lemma CallsOfNext(log: seq<Record>, agent: Agent, i: nat)
    requires i < |log|
    ensures CallsOf(log[..i + 1], agent)
            == if log[i].agent == agent then CallsOf(log[..i], agent) + [log[i]] else CallsOf(log[..i], agent)
  {
    assert log[..i + 1][..i] == log[..i];
  }

  lemma {:induction false} EntriesOneByOne(log: seq<Record>)
    ensures |Entries(log)| == |log| && forall i :: 0 <= i < |log| ==> Entries(log)[i] == Entry(log[i])
  {
    if log != [] {
      EntriesOneByOne(log[..|log| - 1]);
    }
  }

  lemma EntriesAppend(log: seq<Record>, record: Record)
    ensures Entries(log + [record]) == Entries(log) + [Entry(record)]
  {
    assert (log + [record])[..|log|] == log;
  }

  /** Splitting the record by agent loses and repeats nothing: every call is in its own agent's
      list as often as it is on record, and in no other's. */
  lemma {:induction false} RecordIsSplitExactly(log: seq<Record>, record: Record, agent: Agent)
    ensures multiset(CallsOf(log, agent))[record] == if record.agent == agent then multiset(log)[record] else 0
  {
    if log != [] {
      var before, last := log[..|log| - 1], log[|log| - 1];
      RecordIsSplitExactly(before, record, agent);
      assert log == before + [last];
    }
  }
}
