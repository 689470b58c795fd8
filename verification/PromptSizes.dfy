/** The size of the prompt as it is measured: the evidence dumped as JSON indented by two, with
    everything outside printable ASCII escaped, after a fixed number of other characters. */
module PromptSizes {
  import opened Options
  import opened JsonTrees
  import opened PromptBudget
  import opened PromptStall
  import opened PromptProgress

  /** The characters a dump spends on one character of a string. */
  function Escaped(c: char): nat {
    if c == '"' || c == '\\' || c == '\n' || c == '\r' || c == '\t' || c as int == 8 || c as int == 12 then 2
    else if ' ' <= c <= '~' then 1
    else if c as int <= 0xFFFF then 6
    else 12
  }

  const ESCAPED: char -> nat := c => Escaped(c)

  function Quoted(text: string): nat {
    2 + Cost(ESCAPED, text)
  }

  /** `"key": ` before a value of a dict. */
  function Label(part: Part): nat {
    if part.Key? then Quoted(part.name) + 2 else 0
  }

  /** The first `n` children, each on a line of its own. */
  function Lines(j: Json, n: nat, depth: nat): nat
    requires n <= Arity(j)
    decreases j, n
  {
    if n == 0 then 0
    else Lines(j, n - 1, depth) + (if n == 1 then 1 else 2) + 2 * (depth + 1)
         + Label(PartAt(j, n - 1)) + Dumped(Child(j, n - 1), depth + 1)
  }

  /** The length of a value dumped at a depth. */
  function Dumped(j: Json, depth: nat): nat
    decreases j, Arity(j) + 1
  {
    match j
    case Scalar(token) => |token|
    case Text(text) => Quoted(text)
    case _ => if Arity(j) == 0 then 2 else Lines(j, Arity(j), depth) + 2 * depth + 3
  }

  function PromptSize(overhead: nat): Json -> nat {
    j => overhead + Dumped(j, 0)
  }

  lemma {:induction false} LinesOfChange(j: Json, i: nat, v: Json, n: nat, depth: nat)
    requires i < Arity(j) && n <= Arity(j)
    ensures Lines(WithChild(j, i, v), n, depth)
            == Lines(j, n, depth) + if i < n then Dumped(v, depth + 1) - Dumped(Child(j, i), depth + 1) else 0
  {
    if n > 0 {
      LinesOfChange(j, i, v, n - 1, depth);
    }
  }

  lemma {:induction false} DumpedAfterPut(j: Json, path: Path, text: string, depth: nat)
    requires Get(j, path).Some? && Get(j, path).value.Text?
    ensures Dumped(Put(j, path, Text(text)), depth) == Dumped(j, depth) - Quoted(Get(j, path).value.text) + Quoted(text)
    decreases path
  {
    if path != [] {
      var i := Find(j, path[0], Arity(j)).value;
      DumpedAfterPut(Child(j, i), path[1..], text, depth + 1);
      LinesOfChange(j, i, Put(Child(j, i), path[1..], Text(text)), Arity(j), depth);
    }
  }

  /** Exchanging a string in the payload changes the prompt by what the two cost when dumped. */
  lemma PromptSizeIsAdditive(overhead: nat)
    ensures TextAdditive(PromptSize(overhead), ESCAPED)
    ensures NearlyUnit(ESCAPED)
  {
    forall j, path, text: string | Get(j, path).Some? && Get(j, path).value.Text?
      ensures PromptSize(overhead)(Put(j, path, Text(text)))
              == PromptSize(overhead)(j) - Cost(ESCAPED, Get(j, path).value.text) + Cost(ESCAPED, text)
    {
      DumpedAfterPut(j, path, text, 0);
    }
  }

  /** Printable ASCII without quotes and backslashes. */
  predicate NeedsNoEscape(text: string) {
    forall c :: c in text ==> ' ' <= c <= '~' && c != '"' && c != '\\'
  }

  /** Snippets that need no escapes are plain: each of their characters costs one. */
  lemma UnescapedIsUnclipped(payload: Json)
    requires WellFormed(payload) && EverySnippet(payload, None, NeedsNoEscape)
    ensures EverySnippet(payload, None, Plain(ESCAPED)) && Unclipped(payload, ESCAPED)
  {
    forall text: string | NeedsNoEscape(text) ensures Plain(ESCAPED)(text) {
      assert forall i :: 0 <= i < |text| ==> text[i] in text;
    }
    EveryWeaker(payload, None, NeedsNoEscape, Plain(ESCAPED));
  }

  /** For the prompt as it is sent: while the last thing done was to clip a snippet, and snippets
      need no escapes, the prompt is four or five tokens over its budget. */
  lemma NoClipFitsThePrompt(payload: Json, overhead: nat, budget: int, n: nat)
    requires WellFormed(payload) && EverySnippet(payload, None, NeedsNoEscape)
    ensures var end := AfterRounds(payload, SnippetsThenLists, Tokens(PromptSize(overhead)), budget, n);
            LastIsClip(end.dropped) ==> budget + 4 <= Tokens(PromptSize(overhead))(end.payload) <= budget + 5
  {
    PromptSizeIsAdditive(overhead);
    UnescapedIsUnclipped(payload);
    NoClipFitsTheBudget(payload, PromptSize(overhead), ESCAPED, budget, n);
  }

  /** When trimming gets through for the prompt as it is sent. */
  lemma PromptGetsThroughExactly(payload: Json, overhead: nat, budget: int)
    requires WellFormed(payload) && EverySnippet(payload, None, NeedsNoEscape)
    ensures GetsThrough(payload, PromptSize(overhead), ESCAPED, budget)
            <==> exists n: nat :: ThroughAfter(payload, Tokens(PromptSize(overhead)), budget, n)
  {
    PromptSizeIsAdditive(overhead);
    UnescapedIsUnclipped(payload);
    GetsThroughExactly(payload, PromptSize(overhead), ESCAPED, budget);
  }

  /** And what comes of a snippet longer than the excess by more than 68 characters: all rounds are
      used up on snippets, no list is cut, and the prompt is still over its budget. */
  lemma LongSnippetSpoilsThePrompt(payload: Json, overhead: nat, budget: int)
    requires WellFormed(payload) && EverySnippet(payload, None, NeedsNoEscape)
    requires 0 < (Tokens(PromptSize(overhead))(payload) - budget) * 4 < |LongestSnippet(payload)| - 68
    ensures var end := AfterRounds(payload, SnippetsThenLists, Tokens(PromptSize(overhead)), budget, MAX_TRIM_ROUNDS);
            && |end.dropped| == MAX_TRIM_ROUNDS && OnlySnippets(end.dropped)
            && budget + 4 <= Tokens(PromptSize(overhead))(end.payload) <= budget + 5
  {
    PromptSizeIsAdditive(overhead);
    UnescapedIsUnclipped(payload);
    NewlineIsEscaped();
    hide WellFormed, EverySnippet, TextAdditive, NearlyUnit, Dumped, AfterRounds, LongestSnippet, Tokens;
    LongSnippetNeverFits(payload, PromptSize(overhead), ESCAPED, budget, MAX_TRIM_ROUNDS);
    WhyItStops(payload, SnippetsThenLists, Tokens(PromptSize(overhead)), budget, MAX_TRIM_ROUNDS);
  }

  lemma NewlineIsEscaped()
    ensures ESCAPED('\n') == 2
  {
  }
}
