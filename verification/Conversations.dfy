/** A conversation as its memory promises to keep it: all turns in order, a first part of them
    folded into a rolling summary. */
module Conversations {
  import opened Options

  datatype Turn = Turn(role: string, content: string)

  /** How a summary came about: nothing, or an earlier summary retold with more turns. */
  datatype Tale = Nothing | Retold(before: Tale, turns: seq<Turn>, answer: string)

  datatype Conversation = Conversation(turns: seq<Turn>, folded: nat, tale: Tale)

  const EMPTY := Conversation([], 0, Nothing)

  function EstimateTokens(text: string): nat {
    if text == "" then 0 else (|text| + 3) / 4
  }

  function SummaryOf(tale: Tale): string {
    if tale.Nothing? then "" else tale.answer
  }

  /** The turns that went into a summary. */
  function Covered(tale: Tale): seq<Turn> {
    if tale.Nothing? then [] else Covered(tale.before) + tale.turns
  }

  function TokensOf(turns: seq<Turn>): nat {
    if turns == [] then 0 else EstimateTokens(turns[0].content) + TokensOf(turns[1..])
  }

  function Unfolded(c: Conversation): seq<Turn>
    requires c.folded <= |c.turns|
  {
    c.turns[c.folded..]
  }

  function Total(c: Conversation): nat
    requires c.folded <= |c.turns|
  {
    EstimateTokens(SummaryOf(c.tale)) + TokensOf(Unfolded(c))
  }

  predicate NeedsSummary(c: Conversation, budget: int, keep: nat)
    requires c.folded <= |c.turns|
  {
    Total(c) > budget && |Unfolded(c)| > keep
  }

  /** How many of `n` turns `rows[:-keep]` takes: none at all when `keep` is zero. */
  function FoldCount(n: nat, keep: nat): nat
    requires n >= keep
  {
    if keep == 0 then 0 else n - keep
  }

  /** The answer is absent when the provider fails. */
  function Summarised(c: Conversation, keep: nat, answer: Option<string>): (d: Conversation)
    requires c.folded <= |c.turns|
    ensures d.folded <= |d.turns| && d.turns == c.turns
  {
    if |Unfolded(c)| <= keep || answer.None? then c
    else
      var k := FoldCount(|Unfolded(c)|, keep);
      Conversation(c.turns, c.folded + k, Retold(c.tale, Unfolded(c)[..k], answer.value))
  }

  function Appended(c: Conversation, turn: Turn, budget: int, keep: nat, answer: Option<string>): (d: Conversation)
    requires c.folded <= |c.turns|
    ensures d.folded <= |d.turns| && d.turns == c.turns + [turn]
  {
    var longer := c.(turns := c.turns + [turn]);
    if NeedsSummary(longer, budget, keep) then Summarised(longer, keep, answer) else longer
  }

  datatype Event = Said(turn: Turn, answer: Option<string>) | Summarise(answer: Option<string>)

  function After(events: seq<Event>, budget: int, keep: nat): (c: Conversation)
    ensures c.folded <= |c.turns|
  {
    if events == [] then EMPTY
    else
      var before := After(events[..|events| - 1], budget, keep);
      match events[|events| - 1]
      case Said(turn, answer) => Appended(before, turn, budget, keep, answer)
      case Summarise(answer) => Summarised(before, keep, answer)
  }

  function AllSaid(events: seq<Event>): seq<Turn> {
    if events == [] then []
    else AllSaid(events[..|events| - 1]) + match events[|events| - 1] case Said(turn, _) => [turn] case _ => []
  }

  /** Over any run no turn is lost, and the folded turns are a prefix of the conversation and
      exactly those the summary covers. */
  lemma {:induction false} FoldedTurnsAreTheCoveredPrefix(events: seq<Event>, budget: int, keep: nat)
    ensures var c := After(events, budget, keep);
            c.turns == AllSaid(events) && Covered(c.tale) == c.turns[..c.folded]
  {
    if events != [] {
      var before := events[..|events| - 1];
      FoldedTurnsAreTheCoveredPrefix(before, budget, keep);
      var c := After(before, budget, keep);
      match events[|events| - 1] {
        case Said(turn, answer) =>
          assert (c.turns + [turn])[..c.folded] == c.turns[..c.folded];
          SummarisingCovers(c.(turns := c.turns + [turn]), keep, answer);
        case Summarise(answer) => SummarisingCovers(c, keep, answer);
      }
    }
  }

  lemma SummarisingCovers(c: Conversation, keep: nat, answer: Option<string>)
    requires c.folded <= |c.turns| && Covered(c.tale) == c.turns[..c.folded]
    ensures var d := Summarised(c, keep, answer); Covered(d.tale) == d.turns[..d.folded]
  {
    var d := Summarised(c, keep, answer);
    if d != c {
      assert d.turns[..d.folded] == c.turns[..c.folded] + Unfolded(c)[..d.folded - c.folded];
    }
  }

  /** With at least one turn kept, after an append that did not fail the conversation fits the
      budget or has at most `keep` turns unfolded. */
  lemma AppendSettles(c: Conversation, turn: Turn, budget: int, keep: nat, answer: Option<string>)
    requires c.folded <= |c.turns| && keep > 0 && answer.Some?
    ensures var d := Appended(c, turn, budget, keep, answer); Total(d) <= budget || |Unfolded(d)| <= keep
  {
  }

  /** A summarisation that does not fail leaves exactly the last `keep` turns unfolded, when there
      were more and any are kept. */
  lemma SummarisingKeepsTheLast(c: Conversation, keep: nat, answer: string)
    requires c.folded <= |c.turns| && |Unfolded(c)| > keep > 0
    ensures var d := Summarised(c, keep, Some(answer));
            Unfolded(d) == c.turns[|c.turns| - keep..] && SummaryOf(d.tale) == answer
  {
  }

  /** With none kept nothing is ever folded, so the same append leaves every turn unfolded. */
  lemma {:induction false} KeepingNoneFoldsNothing(events: seq<Event>, budget: int)
    ensures After(events, budget, 0).folded == 0
  {
    if events != [] {
      KeepingNoneFoldsNothing(events[..|events| - 1], budget);
    }
  }

  /** What an append leaves is settled, fitting the budget or with at most `keep` turns unfolded,
      exactly when no summary was needed, or one was made and something is kept, or the summary and
      all unfolded turns fit together. */
  lemma SettlingNeedsKeep(c: Conversation, turn: Turn, budget: int, keep: nat, answer: Option<string>)
    requires c.folded <= |c.turns|
    ensures var longer, d := c.(turns := c.turns + [turn]), Appended(c, turn, budget, keep, answer);
            (Total(d) <= budget || |Unfolded(d)| <= keep)
            <==> || Total(longer) <= budget || |Unfolded(c)| < keep
                 || (answer.Some? && (keep > 0 || EstimateTokens(answer.value) + TokensOf(Unfolded(c) + [turn]) <= budget))
  {
    var longer := c.(turns := c.turns + [turn]);
    assert Unfolded(longer) == Unfolded(c) + [turn];
    if keep == 0 {
      assert Unfolded(Appended(c, turn, budget, 0, answer)) == Unfolded(longer);
    }
  }

  // ---------------------------------------------------------------------------
  // Context.
  // ---------------------------------------------------------------------------

  function Room(c: Conversation, budget: int): nat {
    var left := budget - EstimateTokens(SummaryOf(c.tale));
    if left > 0 then left else 0
  }

  /** The longest suffix of some turns that fits. */
  ghost predicate LongestFitting(turns: seq<Turn>, room: nat, chosen: seq<Turn>) {
    && |chosen| <= |turns| && chosen == turns[|turns| - |chosen|..]
    && TokensOf(chosen) <= room
    && forall k :: 0 <= k < |turns| - |chosen| ==> TokensOf(turns[k..]) > room
  }

  lemma {:induction false} ShorterSuffixesAreCheaper(turns: seq<Turn>, i: nat, j: nat)
    requires i <= j <= |turns|
    ensures TokensOf(turns[i..]) >= TokensOf(turns[j..])
  {
    if i < j {
      ShorterSuffixesAreCheaper(turns, i, j - 1);
      assert turns[j - 1..][1..] == turns[j..];
    }
  }

  lemma TokensOfSuffix(turns: seq<Turn>, i: nat)
    requires i < |turns|
    ensures TokensOf(turns[i..]) == EstimateTokens(turns[i].content) + TokensOf(turns[i + 1..])
    ensures turns[i..] == [turns[i]] + turns[i + 1..]
  {
    assert turns[i..][1..] == turns[i + 1..];
  }

  lemma SuffixIsLongest(turns: seq<Turn>, i: nat, room: nat)
    requires i <= |turns| && TokensOf(turns[i..]) <= room && (i > 0 ==> TokensOf(turns[i - 1..]) > room)
    ensures LongestFitting(turns, room, turns[i..])
  {
    forall k | 0 <= k < i ensures TokensOf(turns[k..]) > room {
      ShorterSuffixesAreCheaper(turns, k, i - 1);
    }
  }
}
