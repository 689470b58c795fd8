/** Merging the outputs of planning rounds, and the loop that runs the rounds. */
module EvidenceMerge {
  import opened Options
  import opened JsonTrees
  import opened ToolPlans

  /** A dict by key, or anything else. */
  datatype Output = Mapping(fields: map<string, Json>) | NotMapping(value: Option<Json>)

  datatype AgentOutput = AgentOutput(
    agent: Agent, ok: bool, output: Output, error: Option<string>, degradedNote: Option<string>, tools: seq<string>)

  type Outputs = map<Agent, AgentOutput>

  // ---------------------------------------------------------------------------
  // Tools.
  // ---------------------------------------------------------------------------

  /** Appends what is not there yet, in order. */
  function Union(tools: seq<string>, more: seq<string>): seq<string> {
    if more == [] then tools
    else
      var before, last := Union(tools, more[..|more| - 1]), more[|more| - 1];
      if last in before then before else before + [last]
  }

  predicate NoRepeats(tools: seq<string>) {
    forall i, j :: 0 <= i < j < |tools| ==> tools[i] != tools[j]
  }

  /** The union keeps the first list as it is, has exactly the members of both, and adds none
      twice. */
  lemma {:induction false} UnionIsOrdered(tools: seq<string>, more: seq<string>)
    ensures tools <= Union(tools, more)
    ensures forall x :: x in Union(tools, more) <==> x in tools || x in more
    ensures NoRepeats(tools) ==> NoRepeats(Union(tools, more))
  {
    if more != [] {
      UnionIsOrdered(tools, more[..|more| - 1]);
      assert more == more[..|more| - 1] + [more[|more| - 1]];
    }
  }

  lemma {:induction false} UnionIsAssociative(a: seq<string>, b: seq<string>, c: seq<string>)
    ensures Union(Union(a, b), c) == Union(a, Union(b, c))
  {
    if c != [] {
      var before, last := c[..|c| - 1], c[|c| - 1];
      UnionIsAssociative(a, b, before);
      UnionIsOrdered(b, before);
      UnionIsOrdered(a, Union(b, before));
      if last !in Union(b, before) {
        assert (Union(b, before) + [last])[..|Union(b, before)|] == Union(b, before);
      }
    }
  }

  // ---------------------------------------------------------------------------
  // One agent.
  // ---------------------------------------------------------------------------

  function FieldsOf(output: Output): map<string, Json> {
    if output.Mapping? then output.fields else map[]
  }

  /** Lists are run together, anything else is replaced. */
  function JoinedValue(existing: Option<Json>, value: Json): Json {
    if value.List? && existing.Some? && existing.value.List? then List(existing.value.items + value.items) else value
  }

  function FieldAt(fields: map<string, Json>, key: string): Option<Json> {
    if key in fields then Some(fields[key]) else None
  }

  function Combined(before: map<string, Json>, after: map<string, Json>): (all: map<string, Json>)
    ensures all.Keys == before.Keys + after.Keys
    ensures forall key :: key in all ==> all[key] == if key in after then JoinedValue(FieldAt(before, key), after[key]) else before[key]
  {
    map key | key in before.Keys + after.Keys ::
      if key in after then JoinedValue(FieldAt(before, key), after[key]) else before[key]
  }

  function Either(first: Option<string>, second: Option<string>): Option<string> {
    if first.Some? && first.value != "" then first else second
  }

  /** `_merge_one` */
  function MergeOne(previous: AgentOutput, incoming: AgentOutput): AgentOutput {
    var tools := Union(previous.tools, incoming.tools);
    if incoming.ok && !previous.ok then incoming.(tools := tools)
    else if incoming.ok then
      var combined := Combined(FieldsOf(previous.output), FieldsOf(incoming.output));
      incoming.(output := if |combined| > 0 then Mapping(combined) else incoming.output,
                tools := tools, degradedNote := Either(incoming.degradedNote, previous.degradedNote))
    else if previous.ok then previous.(tools := tools)
    else incoming.(tools := tools)
  }

  lemma FieldsOfMerge(previous: AgentOutput, incoming: AgentOutput)
    requires previous.ok && incoming.ok
    ensures FieldsOf(MergeOne(previous, incoming).output) == Combined(FieldsOf(previous.output), FieldsOf(incoming.output))
  {
    var combined := Combined(FieldsOf(previous.output), FieldsOf(incoming.output));
    if |combined| == 0 {
      assert FieldsOf(incoming.output).Keys <= combined.Keys;
      assert combined.Keys == {};
    }
  }

  /** A key holds a list, then something else, then a list again: only one order of merging
      brings the first list back. */
  predicate Clash(a: map<string, Json>, b: map<string, Json>, c: map<string, Json>, key: string) {
    key in a && key in b && key in c && a[key].List? && !b[key].List? && c[key].List? && a[key].items != []
  }

  lemma JoinedIsAssociativeExactly(a: map<string, Json>, b: map<string, Json>, c: map<string, Json>, key: string)
    ensures FieldAt(Combined(Combined(a, b), c), key) == FieldAt(Combined(a, Combined(b, c)), key) <==> !Clash(a, b, c, key)
  {
    if key in a && key in b && key in c && a[key].List? && b[key].List? && c[key].List? {
      assert a[key].items + b[key].items + c[key].items == a[key].items + (b[key].items + c[key].items);
    }
    if key in a && key in b && key in c && a[key].List? && !b[key].List? && c[key].List? {
      if a[key].items == [] {
        assert a[key].items + c[key].items == c[key].items;
      } else {
        assert |a[key].items + c[key].items| != |c[key].items|;
      }
    }
  }

  lemma CombinedIsAssociativeExactly(a: map<string, Json>, b: map<string, Json>, c: map<string, Json>)
    ensures Combined(Combined(a, b), c) == Combined(a, Combined(b, c)) <==> forall key :: !Clash(a, b, c, key)
  {
    var left, right := Combined(Combined(a, b), c), Combined(a, Combined(b, c));
    forall key ensures FieldAt(left, key) == FieldAt(right, key) <==> !Clash(a, b, c, key) {
      JoinedIsAssociativeExactly(a, b, c, key);
    }
    assert left.Keys == right.Keys;
    if forall key :: !Clash(a, b, c, key) {
      forall key | key in left ensures left[key] == right[key] {
        assert FieldAt(left, key) == FieldAt(right, key);
      }
    }
    if left == right {
      forall key ensures !Clash(a, b, c, key) {
        assert FieldAt(left, key) == FieldAt(right, key);
      }
    }
  }

  /** Three rounds whose successful outputs clash at no key. */
  predicate MergesEitherWay(a: AgentOutput, b: AgentOutput, c: AgentOutput) {
    a.ok && b.ok && c.ok ==>
      forall key :: key in FieldsOf(a.output) ==> !Clash(FieldsOf(a.output), FieldsOf(b.output), FieldsOf(c.output), key)
  }

  lemma SameOutput(a: AgentOutput, b: AgentOutput, c: AgentOutput)
    requires a.ok && b.ok && c.ok
    ensures var left, right := MergeOne(MergeOne(a, b), c), MergeOne(a, MergeOne(b, c));
            var total := Combined(Combined(FieldsOf(a.output), FieldsOf(b.output)), FieldsOf(c.output));
            var other := Combined(FieldsOf(a.output), Combined(FieldsOf(b.output), FieldsOf(c.output)));
            && left.output == (if |total| > 0 then Mapping(total) else c.output)
            && right.output == (if |other| > 0 then Mapping(other) else c.output)
  {
    FieldsOfMerge(a, b);
    FieldsOfMerge(b, c);
    var other := Combined(FieldsOf(a.output), Combined(FieldsOf(b.output), FieldsOf(c.output)));
    var later := Combined(FieldsOf(b.output), FieldsOf(c.output));
    if |other| == 0 {
      assert later.Keys <= other.Keys && other.Keys == {};
      assert |later| == 0;
    }
  }

  /** With a round that failed, at most two outputs are combined and the order cannot matter. */
  lemma SomeRoundFailed(a: AgentOutput, b: AgentOutput, c: AgentOutput)
    requires !a.ok || !b.ok || !c.ok
    ensures MergeOne(MergeOne(a, b), c) == MergeOne(a, MergeOne(b, c))
  {
    UnionIsAssociative(a.tools, b.tools, c.tools);
    hide Union, Combined, Either, FieldsOf;
  }

  lemma AllButTheOutput(a: AgentOutput, b: AgentOutput, c: AgentOutput)
    requires a.ok && b.ok && c.ok
    ensures var left, right := MergeOne(MergeOne(a, b), c), MergeOne(a, MergeOne(b, c));
            left == right <==> left.output == right.output
  {
    UnionIsAssociative(a.tools, b.tools, c.tools);
    hide Union, Combined, FieldsOf;
  }

  /** Merging one agent's rounds is associative exactly when no key of three successful outputs
      goes from a list to something else and back. */
  lemma MergeOneIsAssociativeExactly(a: AgentOutput, b: AgentOutput, c: AgentOutput)
    ensures MergeOne(MergeOne(a, b), c) == MergeOne(a, MergeOne(b, c)) <==> MergesEitherWay(a, b, c)
  {
    if a.ok && b.ok && c.ok {
      var fa, fb, fc := FieldsOf(a.output), FieldsOf(b.output), FieldsOf(c.output);
      AllButTheOutput(a, b, c);
      SameOutput(a, b, c);
      CombinedIsAssociativeExactly(fa, fb, fc);
      SameSize(fa, fb, fc);
      assert (forall key :: !Clash(fa, fb, fc, key)) <==> MergesEitherWay(a, b, c);
      hide Combined, MergeOne;
    } else {
      SomeRoundFailed(a, b, c);
    }
  }

  lemma SameSize(a: map<string, Json>, b: map<string, Json>, c: map<string, Json>)
    ensures var total, other := Combined(Combined(a, b), c), Combined(a, Combined(b, c));
            |total| == |other| && (|total| == 0 ==> total == other)
  {
    var total, other := Combined(Combined(a, b), c), Combined(a, Combined(b, c));
    assert total.Keys == other.Keys;
    assert |total| == |total.Keys| && |other| == |other.Keys|;
  }

  // ---------------------------------------------------------------------------
  // All agents.
  // ---------------------------------------------------------------------------

  /** `merge_agent_outputs` */
  function Merge(base: Outputs, extra: Outputs): (all: Outputs)
    ensures all.Keys == base.Keys + extra.Keys
  {
    map agent | agent in base.Keys + extra.Keys ::
      if agent !in extra then base[agent]
      else if agent !in base then extra[agent]
      else MergeOne(base[agent], extra[agent])
  }

  ghost predicate AllMergeEitherWay(a: Outputs, b: Outputs, c: Outputs) {
    forall agent :: agent in a && agent in b && agent in c ==> MergesEitherWay(a[agent], b[agent], c[agent])
  }

  lemma MergeIsAssociativeExactly(a: Outputs, b: Outputs, c: Outputs)
    ensures Merge(Merge(a, b), c) == Merge(a, Merge(b, c)) <==> AllMergeEitherWay(a, b, c)
  {
    var left, right := Merge(Merge(a, b), c), Merge(a, Merge(b, c));
    assert left.Keys == right.Keys;
    forall agent | agent in left
      ensures left[agent] == right[agent]
              <==> (agent in a && agent in b && agent in c ==> MergesEitherWay(a[agent], b[agent], c[agent]))
    {
      if agent in a && agent in b && agent in c {
        MergeOneIsAssociativeExactly(a[agent], b[agent], c[agent]);
      }
      hide MergeOne, MergesEitherWay;
    }
    hide MergeOne, MergesEitherWay;
  }

  /** An agent is ok after a merge exactly when it was in either. */
  lemma OkIsTheDisjunction(base: Outputs, extra: Outputs, agent: Agent)
    requires agent in base || agent in extra
    ensures Merge(base, extra)[agent].ok <==> (agent in base && base[agent].ok) || (agent in extra && extra[agent].ok)
  {
  }

  // ---------------------------------------------------------------------------
  // The merges as they are run.
  // ---------------------------------------------------------------------------

  method MergeTools(tools: seq<string>, more: seq<string>) returns (all: seq<string>)
    ensures all == Union(tools, more)
  {
    all := tools;
    for i := 0 to |more|
      invariant all == Union(tools, more[..i])
    {
      assert more[..i + 1][..i] == more[..i];
      if more[i] !in all {
        all := all + [more[i]];
      }
    }
    assert more[..|more|] == more;
  }

  /** The entries of a map under some of its keys. */
  function Part<K, V>(m: map<K, V>, keys: set<K>): map<K, V> {
    map k | k in m && k in keys :: m[k]
  }

  lemma WholeOrNothing<K, V>(m: map<K, V>)
    ensures Part(m, {}) == map[] && Part(m, m.Keys) == m
  {
  }

  lemma OneMoreField(before: map<string, Json>, after: map<string, Json>, done: set<string>, key: string)
    requires key in after && key !in done
    ensures FieldAt(Combined(before, Part(after, done)), key) == FieldAt(before, key)
    ensures Combined(before, Part(after, done + {key}))
            == Combined(before, Part(after, done))[key := JoinedValue(FieldAt(before, key), after[key])]
  {
    var next := Combined(before, Part(after, done))[key := JoinedValue(FieldAt(before, key), after[key])];
    assert next.Keys == before.Keys + Part(after, done + {key}).Keys;
    hide JoinedValue;
  }

  lemma NoFieldYet(before: map<string, Json>, after: map<string, Json>)
    ensures Combined(before, Part(after, {})) == before
  {
  }

  method JoinValues(existing: Option<Json>, value: Json) returns (joined: Json)
    ensures joined == JoinedValue(existing, value)
  {
    if value.List? && existing.Some? && existing.value.List? {
      joined := List(existing.value.items + value.items);
    } else {
      joined := value;
    }
  }

  method MergeFields(before: map<string, Json>, after: map<string, Json>) returns (combined: map<string, Json>)
    ensures combined == Combined(before, after)
  {
    hide *;
    NoFieldYet(before, after);
    combined := before;
    var done, rest := {}, after.Keys;
    while rest != {}
      invariant done !! rest && done + rest == after.Keys && combined == Combined(before, Part(after, done))
      decreases |rest|
    {
      var key :| key in rest;
      OneMoreField(before, after, done, key);
      var joined := JoinValues(FieldAt(combined, key), after[key]);
      combined := combined[key := joined];
      done, rest := done + {key}, rest - {key};
    }
    assert done == after.Keys;
    WholeOrNothing(after);
  }

  method MergeAgent(previous: AgentOutput, incoming: AgentOutput) returns (merged: AgentOutput)
    ensures merged == MergeOne(previous, incoming)
  {
    var tools := MergeTools(previous.tools, incoming.tools);
    if incoming.ok && !previous.ok {
      return incoming.(tools := tools);
    }
    if incoming.ok && previous.ok {
      var combined := MergeFields(FieldsOf(previous.output), FieldsOf(incoming.output));
      return incoming.(output := if |combined| > 0 then Mapping(combined) else incoming.output,
                       tools := tools, degradedNote := Either(incoming.degradedNote, previous.degradedNote));
    }
    if previous.ok {
      return previous.(tools := tools);
    }
    merged := incoming.(tools := tools);
  }

  lemma OneMoreAgent(base: Outputs, extra: Outputs, done: set<Agent>, agent: Agent)
    requires agent in extra && agent !in done
    ensures var merged := Merge(base, Part(extra, done));
            && (agent in merged <==> agent in base) && (agent in base ==> merged[agent] == base[agent])
            && Merge(base, Part(extra, done + {agent}))
               == merged[agent := if agent in base then MergeOne(base[agent], extra[agent]) else extra[agent]]
  {
    hide MergeOne;
    var merged := Merge(base, Part(extra, done));
    var next := merged[agent := if agent in base then MergeOne(base[agent], extra[agent]) else extra[agent]];
    assert next.Keys == base.Keys + Part(extra, done + {agent}).Keys;
  }

  lemma NoAgentYet(base: Outputs, extra: Outputs)
    ensures Merge(base, Part(extra, {})) == base
  {
    hide MergeOne;
  }

  method MergeAgentOutputs(base: Outputs, extra: Outputs) returns (merged: Outputs)
    ensures merged == Merge(base, extra)
  {
    hide *;
    NoAgentYet(base, extra);
    merged := base;
    var done, rest := {}, extra.Keys;
    while rest != {}
      invariant done !! rest && done + rest == extra.Keys && merged == Merge(base, Part(extra, done))
      decreases |rest|
    {
      var agent :| agent in rest;
      OneMoreAgent(base, extra, done, agent);
      if agent in merged {
        var one := MergeAgent(merged[agent], extra[agent]);
        merged := merged[agent := one];
      } else {
        merged := merged[agent := extra[agent]];
      }
      done, rest := done + {agent}, rest - {agent};
    }
    assert done == extra.Keys;
    WholeOrNothing(extra);
  }
}
