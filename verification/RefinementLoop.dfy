/** The rounds of a query: plan, merge, assess, refine. What is asked of the budget, the clock, the
    assessment and the refinement in each round is an input. */
module RefinementLoop {
  import opened JsonTrees
  import opened ToolPlans
  import opened EvidenceMerge

  /** One round: whether the budget allows it, whether plan time is left and a follow-up plan
      exists (asked from the second round on), what it brings, and whether that suffices. */
  datatype Round = Round(allowed: bool, timeLeft: bool, followUp: bool, outputs: Outputs, sufficient: bool)

  function MaxRounds(maxPlanIterations: int): nat
  {
    if maxPlanIterations > 1 then maxPlanIterations else 1
  }

  predicate Starts(rounds: seq<Round>, i: nat)
    requires i < |rounds|
  {
    rounds[i].allowed && (i > 0 ==> rounds[i].timeLeft && rounds[i].followUp && !rounds[i - 1].sufficient)
  }

  /** The first `n` rounds all ran. */
  predicate AllStart(rounds: seq<Round>, n: nat)
    requires n <= |rounds|
  {
    forall i: nat :: i < n ==> Starts(rounds, i)
  }

  function MergedRounds(rounds: seq<Round>, n: nat): Outputs
    requires n <= |rounds|
  {
    if n == 0 then map[] else Merge(MergedRounds(rounds, n - 1), rounds[n - 1].outputs)
  }

  lemma MergeWithNothing(extra: Outputs)
    ensures Merge(map[], extra) == extra
  {
  }

  /** Runs at most the configured number of rounds, at least one if the budget allows any, and
      stops as soon as one may not start or has sufficed. */
  method RunRefinementLoop(rounds: seq<Round>, maxPlanIterations: int) returns (combined: Outputs, iterations: nat)
    requires |rounds| >= MaxRounds(maxPlanIterations)
    ensures iterations <= MaxRounds(maxPlanIterations) && AllStart(rounds, iterations)
    ensures iterations < MaxRounds(maxPlanIterations) ==> !Starts(rounds, iterations)
    ensures combined == MergedRounds(rounds, iterations)
  {
    hide Merge;
    var maxIterations := MaxRounds(maxPlanIterations);
    combined, iterations := map[], 0;
    while iterations < maxIterations
      invariant iterations <= maxIterations && AllStart(rounds, iterations)
      invariant iterations > 0 ==> !rounds[iterations - 1].sufficient
      invariant combined == MergedRounds(rounds, iterations)
    {
      var round := rounds[iterations];
      if !round.allowed {
        break;
      }
      if iterations > 0 {
        if !round.timeLeft {
          break;
        }
        if !round.followUp {
          break;
        }
      }
      if |combined| > 0 {
        combined := MergeAgentOutputs(combined, round.outputs);
      } else {
        MergeWithNothing(round.outputs);
        combined := round.outputs;
      }
      iterations := iterations + 1;
      if round.sufficient {
        break;
      }
    }
  }

  // ---------------------------------------------------------------------------
  // What later rounds cannot take away.
  // ---------------------------------------------------------------------------

  /** An agent that was ok after some round is ok after every later one. */
  lemma {:induction false} OnceOkStaysOk(rounds: seq<Round>, i: nat, j: nat, agent: Agent)
    requires i <= j <= |rounds| && agent in MergedRounds(rounds, i) && MergedRounds(rounds, i)[agent].ok
    ensures agent in MergedRounds(rounds, j) && MergedRounds(rounds, j)[agent].ok
  {
    if i < j {
      OnceOkStaysOk(rounds, i, j - 1, agent);
      OkIsTheDisjunction(MergedRounds(rounds, j - 1), rounds[j - 1].outputs, agent);
    }
  }

  predicate OkIn(outputs: Outputs, agent: Agent) {
    agent in outputs && outputs[agent].ok
  }

  /** What an agent's output holds as a list under a key. */
  function ListAt(outputs: Outputs, agent: Agent, key: string): seq<Json> {
    if agent in outputs && key in FieldsOf(outputs[agent].output) && FieldsOf(outputs[agent].output)[key].List?
    then FieldsOf(outputs[agent].output)[key].items else []
  }

  /** Whenever the agent succeeds its output holds a list, or nothing, under the key. */
  predicate ListOrNothing(rounds: seq<Round>, agent: Agent, key: string) {
    forall i :: 0 <= i < |rounds| && OkIn(rounds[i].outputs, agent) && key in FieldsOf(rounds[i].outputs[agent].output)
      ==> FieldsOf(rounds[i].outputs[agent].output)[key].List?
  }

  /** The lists under a key from the first `n` rounds in which the agent succeeded, in order. */
  function Evidence(rounds: seq<Round>, agent: Agent, key: string, n: nat): seq<Json>
    requires n <= |rounds|
  {
    if n == 0 then []
    else
      var before := Evidence(rounds, agent, key, n - 1);
      if OkIn(rounds[n - 1].outputs, agent) then before + ListAt(rounds[n - 1].outputs, agent, key) else before
  }

  ghost predicate KeepsList(merged: Outputs, agent: Agent, key: string, evidence: seq<Json>) {
    if OkIn(merged, agent) then
      (key in FieldsOf(merged[agent].output) ==> FieldsOf(merged[agent].output)[key].List?)
      && ListAt(merged, agent, key) == evidence
    else evidence == []
  }

  lemma MergeKeepsList(merged: Outputs, extra: Outputs, agent: Agent, key: string, evidence: seq<Json>)
    requires KeepsList(merged, agent, key, evidence)
    requires OkIn(extra, agent) && key in FieldsOf(extra[agent].output) ==> FieldsOf(extra[agent].output)[key].List?
    ensures KeepsList(Merge(merged, extra), agent, key,
                      if OkIn(extra, agent) then evidence + ListAt(extra, agent, key) else evidence)
  {
    MergedAgent(merged, extra, agent);
    hide Merge, MergeOne;
  }

  /** What a merge makes of one agent. */
  lemma MergedAgent(merged: Outputs, extra: Outputs, agent: Agent)
    ensures var all := Merge(merged, extra);
            && (agent in all <==> agent in merged || agent in extra)
            && (OkIn(all, agent) <==> OkIn(merged, agent) || OkIn(extra, agent))
            && (OkIn(merged, agent) && !OkIn(extra, agent) ==> all[agent].output == merged[agent].output)
            && (!OkIn(merged, agent) && OkIn(extra, agent) ==> all[agent].output == extra[agent].output)
            && (OkIn(merged, agent) && OkIn(extra, agent) ==>
                  FieldsOf(all[agent].output) == Combined(FieldsOf(merged[agent].output), FieldsOf(extra[agent].output)))
  {
    if OkIn(merged, agent) && OkIn(extra, agent) {
      FieldsOfMerge(merged[agent], extra[agent]);
    }
  }

  /** List evidence from every round in which the agent succeeded survives, in order. */
  lemma {:induction false} ListEvidenceSurvives(rounds: seq<Round>, agent: Agent, key: string, n: nat)
    requires n <= |rounds| && ListOrNothing(rounds, agent, key)
    ensures KeepsList(MergedRounds(rounds, n), agent, key, Evidence(rounds, agent, key, n))
  {
    if n > 0 {
      ListEvidenceSurvives(rounds, agent, key, n - 1);
      MergeKeepsList(MergedRounds(rounds, n - 1), rounds[n - 1].outputs, agent, key, Evidence(rounds, agent, key, n - 1));
      hide Merge, KeepsList, ListAt;
    }
  }

  // ---------------------------------------------------------------------------
  // Graph hits.
  // ---------------------------------------------------------------------------

  const HIT_KEYS: seq<string> := ["qualified_name", "file_path", "filePath", "name", "path"]

  predicate Truthy(j: Json) {
    match j
    case Scalar(token) => token !in ["None", "False", "0", "0.0"]
    case Text(text) => text != ""
    case List(items) => items != []
    case Dict(fields) => fields != []
  }

  predicate HasTruthy(j: Json, key: string) {
    j.Dict? && exists i :: 0 <= i < |j.fields| && j.fields[i].key == key && Truthy(j.fields[i].value)
  }

  /** `_is_entity_hit` */
  predicate IsEntityHit(j: Json) {
    exists k :: 0 <= k < |HIT_KEYS| && HasTruthy(j, HIT_KEYS[k])
  }

  /** An entity result counts by its matches or by itself. */
  predicate HoldsHit(j: Json) {
    IsEntityHit(j)
    || (j.Dict? && exists i :: 0 <= i < |j.fields| && j.fields[i].key == "matches" && j.fields[i].value.List?
                               && exists m :: m in j.fields[i].value.items && IsEntityHit(m))
  }

  /** `_has_graph_hits` */
  predicate HasGraphHits(outputs: Outputs) {
    || (exists c :: c in ListAt(outputs, GraphQuery, "candidates") && IsEntityHit(c))
    || (exists e :: e in ListAt(outputs, GraphQuery, "entities") && HoldsHit(e))
  }

  lemma {:induction false} EvidenceHasEachRound(rounds: seq<Round>, agent: Agent, key: string, i: nat, n: nat, x: Json)
    requires i < n <= |rounds| && OkIn(rounds[i].outputs, agent) && x in ListAt(rounds[i].outputs, agent, key)
    ensures x in Evidence(rounds, agent, key, n)
  {
    hide ListAt;
    if i < n - 1 {
      EvidenceHasEachRound(rounds, agent, key, i, n - 1, x);
    }
  }

  lemma HitSurvives(rounds: seq<Round>, key: string, i: nat, n: nat, x: Json)
    requires i < n <= |rounds| && OkIn(rounds[i].outputs, GraphQuery) && ListOrNothing(rounds, GraphQuery, key)
    requires x in ListAt(rounds[i].outputs, GraphQuery, key)
    ensures x in ListAt(MergedRounds(rounds, n), GraphQuery, key)
  {
    EvidenceHasEachRound(rounds, GraphQuery, key, i, n, x);
    ListEvidenceSurvives(rounds, GraphQuery, key, n);
    hide ListAt, MergedRounds, Evidence, ListOrNothing;
  }

  /** Graph hits found in a round that succeeded are never lost, whatever later rounds bring. */
  lemma GraphHitsAreNeverLost(rounds: seq<Round>, i: nat, n: nat)
    requires i < n <= |rounds| && OkIn(rounds[i].outputs, GraphQuery) && HasGraphHits(rounds[i].outputs)
    requires ListOrNothing(rounds, GraphQuery, "candidates") && ListOrNothing(rounds, GraphQuery, "entities")
    ensures HasGraphHits(MergedRounds(rounds, n))
  {
    hide ListAt, MergedRounds, ListOrNothing, IsEntityHit, HoldsHit;
    if c :| c in ListAt(rounds[i].outputs, GraphQuery, "candidates") && IsEntityHit(c) {
      HitSurvives(rounds, "candidates", i, n, c);
    } else {
      var e :| e in ListAt(rounds[i].outputs, GraphQuery, "entities") && HoldsHit(e);
      HitSurvives(rounds, "entities", i, n, e);
    }
  }
}
