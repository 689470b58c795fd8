/** When trimming the snippets first gets through: the prompt fits, or no long snippet is left and
    lists are cut. Otherwise the loop clips snippets for good. */
module PromptProgress {
  import opened Options
  import opened JsonTrees
  import opened PromptBudget
  import opened PromptStall

  // ---------------------------------------------------------------------------
  // The longest snippet stays where it is while its length does.
  // ---------------------------------------------------------------------------

  /** One visit before and after a string was exchanged somewhere in the tree. */
  predicate Exchanged(a: Visit, b: Visit, was: string, now: string) {
    b.path == a.path
    && (b.value == a.value || (!a.value.Text? && !b.value.Text?) || (a.value == Text(was) && b.value == Text(now)))
  }

  predicate AllExchanged(a: seq<Visit>, b: seq<Visit>, was: string, now: string) {
    |a| == |b| && forall k :: 0 <= k < |a| ==> Exchanged(a[k], b[k], was, now)
  }

  lemma ExchangedInBoth(a: seq<Visit>, b: seq<Visit>, c: seq<Visit>, d: seq<Visit>, was: string, now: string)
    requires AllExchanged(a, b, was, now) && AllExchanged(c, d, was, now)
    ensures AllExchanged(a + c, b + d, was, now)
  {
  }

  lemma NoneExchanged(a: seq<Visit>, was: string, now: string)
    ensures AllExchanged(a, a, was, now)
  {
  }

  /** The same tree but for some strings `was` that are `now` instead. */
  ghost predicate Swapped(j: Json, r: Json, was: string, now: string)
    decreases j
  {
    || r == j
    || (j == Text(was) && r == Text(now))
    || (!j.Text? && !r.Text? && Arity(r) == Arity(j)
        && forall i: nat :: i < Arity(j) ==> PartAt(r, i) == PartAt(j, i) && Swapped(Child(j, i), Child(r, i), was, now))
  }

  lemma {:induction false} PutSwaps(j: Json, path: Path, now: string)
    requires Get(j, path).Some? && Get(j, path).value.Text?
    ensures Swapped(j, Put(j, path, Text(now)), Get(j, path).value.text, now)
    decreases path
  {
    if path != [] {
      PutSwaps(Child(j, Find(j, path[0], Arity(j)).value), path[1..], now);
    }
  }

  lemma SwappedVisit(j: Json, r: Json, at: Path, was: string, now: string)
    requires Swapped(j, r, was, now)
    ensures Arity(r) == Arity(j) && Exchanged(Visit(at, j), Visit(at, r), was, now)
  {
  }

  lemma SwappedChild(j: Json, r: Json, i: nat, was: string, now: string)
    requires Swapped(j, r, was, now) && i < Arity(j)
    ensures i < Arity(r) && PartAt(r, i) == PartAt(j, i) && Swapped(Child(j, i), Child(r, i), was, now)
  {
  }

  lemma {:induction false} WalkSwapped(j: Json, r: Json, n: nat, prefix: Path, was: string, now: string)
    requires Swapped(j, r, was, now) && n <= Arity(j)
    ensures n <= Arity(r) && AllExchanged(WalkTo(j, n, prefix), WalkTo(r, n, prefix), was, now)
    decreases j, n
  {
    hide Swapped, Exchanged, AllExchanged;
    SwappedVisit(j, r, prefix, was, now);
    if n == 0 {
      NoneExchanged([], was, now);
    } else {
      WalkSwapped(j, r, n - 1, prefix, was, now);
      SwappedChild(j, r, n - 1, was, now);
      var child, after, at := Child(j, n - 1), Child(r, n - 1), prefix + [PartAt(j, n - 1)];
      SwappedVisit(child, after, at, was, now);
      WalkSwapped(child, after, Arity(child), at, was, now);
      OneExchanged(Visit(at, child), Visit(at, after), was, now);
      ExchangedInBoth(WalkTo(j, n - 1, prefix), WalkTo(r, n - 1, prefix), [Visit(at, child)], [Visit(at, after)], was, now);
      ExchangedInBoth(WalkTo(j, n - 1, prefix) + [Visit(at, child)], WalkTo(r, n - 1, prefix) + [Visit(at, after)],
                      WalkTo(child, Arity(child), at), WalkTo(after, Arity(after), at), was, now);
    }
  }

  lemma OneExchanged(a: Visit, b: Visit, was: string, now: string)
    requires Exchanged(a, b, was, now)
    ensures AllExchanged([a], [b], was, now)
  {
  }

  lemma {:induction false} LongestAfterExchange(a: seq<Visit>, b: seq<Visit>, n: nat, was: string, now: string)
    requires AllExchanged(a, b, was, now) && |was| == |now| && n <= |a|
    ensures var x, y := Longest(Snippet, a, n), Longest(Snippet, b, n);
            (x.None? <==> y.None?) && (x.Some? ==> Exchanged(x.value, y.value, was, now))
  {
    if n > 0 {
      LongestAfterExchange(a, b, n - 1, was, now);
      SameLength(a[n - 1], b[n - 1], was, now);
      var x, y := Longest(Snippet, a, n - 1), Longest(Snippet, b, n - 1);
      if x.Some? {
        SameLength(x.value, y.value, was, now);
      }
      hide Length, Exchanged;
    }
  }

  lemma SameLength(a: Visit, b: Visit, was: string, now: string)
    requires Exchanged(a, b, was, now) && |was| == |now|
    ensures Length(Snippet, a) == Length(Snippet, b)
  {
  }

  /** A string as long as the longest snippet, in its place, is the longest snippet. */
  lemma SameLengthStaysLongest(payload: Json, now: string)
    requires WellFormed(payload) && Candidate(Snippet, payload).Some? && |now| == |LongestSnippet(payload)|
    ensures var v := Candidate(Snippet, payload).value;
            Get(payload, v.path).Some? && Candidate(Snippet, Put(payload, v.path, Text(now))) == Some(Visit(v.path, Text(now)))
  {
    CandidateIsVisited(Snippet, payload);
    var v := Candidate(Snippet, payload).value;
    var next := Put(payload, v.path, Text(now));
    PutSwaps(payload, v.path, now);
    SwappedVisit(payload, next, [], v.value.text, now);
    WalkSwapped(payload, next, Arity(payload), [], v.value.text, now);
    LongestAfterExchange(Walk(payload, []), Walk(next, []), |Walk(next, [])|, v.value.text, now);
    PutKeepsKeys(payload, v.path, Text(now));
    CandidateIsVisited(Snippet, next);
    GetAfterPut(payload, v.path, Text(now));
  }

  // ---------------------------------------------------------------------------
  // One clip after another.
  // ---------------------------------------------------------------------------

  /** What a turn that trims a snippet leaves. */
  function AfterSnippet(payload: Json, excess: nat): (next: Json)
    requires WellFormed(payload) && RoundOf(Snippet, payload, excess).Some?
    ensures WellFormed(next)
  {
    RoundKeepsKeys(Snippet, payload, excess);
    RoundOf(Snippet, payload, excess).value.payload
  }

  lemma AfterSnippetIs(payload: Json, excess: nat)
    requires WellFormed(payload) && Candidate(Snippet, payload).Some?
    ensures RoundOf(Snippet, payload, excess).Some?
    ensures var v := Candidate(Snippet, payload).value;
            && v.value == Text(LongestSnippet(payload)) && |LongestSnippet(payload)| > MIN_SNIPPET_CHARS
            && v.path != [] && IsSnippetKey(ParentKey(v.path)) && Get(payload, v.path) == Some(v.value)
            && AfterSnippet(payload, excess) == Put(payload, v.path, Text(Clipped(LongestSnippet(payload), excess)))
  {
    CandidateIsVisited(Snippet, payload);
  }

  /** What holds after the first clip that keeps something, and after every clip from then on. */
  ghost predicate Landed(payload: Json, chars: Json -> nat, cost: char -> nat, budget: int) {
    WellFormed(payload) && FourOver(payload, chars, cost, budget) && EverySnippet(payload, None, PlainOrClipped(cost))
  }

  /** Characters the prompt has more than there is room for. */
  function Beyond(payload: Json, chars: Json -> nat, budget: int): int {
    chars(payload) - 4 * budget
  }

  lemma TokensOver(payload: Json, chars: Json -> nat, cost: char -> nat, budget: int)
    requires Landed(payload, chars, cost, budget) && NearlyUnit(cost)
    ensures 13 <= Beyond(payload, chars, budget) <= 15 + cost('\n') <= 17
    ensures Tokens(chars)(payload) == budget + if Beyond(payload, chars, budget) == 17 then 5 else 4
    ensures Beyond(payload, chars, budget) == 17 ==> cost('\n') == 2
    ensures Tokens(chars)(payload) <= budget + 3 + cost('\n')
  {
  }

  /** A clip by 16 or 20 characters lands again. */
  lemma ClipLandsAgain(payload: Json, chars: Json -> nat, cost: char -> nat, budget: int)
    requires TextAdditive(chars, cost) && NearlyUnit(cost) && Landed(payload, chars, cost, budget)
    requires Candidate(Snippet, payload).Some?
    ensures var excess := (Tokens(chars)(payload) - budget) * 4;
            excess > 0 && RoundOf(Snippet, payload, excess).Some? && Landed(AfterSnippet(payload, excess), chars, cost, budget)
  {
    TokensOver(payload, chars, cost, budget);
    var excess := (Tokens(chars)(payload) - budget) * 4;
    CandidateHolds(payload, PlainOrClipped(cost));
    hide TextAdditive, NearlyUnit, EverySnippet, RoundOf, Tokens, LongestSnippet, Candidate;
    ClippedIsPlainOrClipped(cost, LongestSnippet(payload), excess);
    ClipLeavesFourOver(payload, chars, cost, budget);
    SnippetRoundHolds(payload, excess, PlainOrClipped(cost));
  }

  /** What a keeping clip changes: the excess for the suffix, where a newline counts for its cost
      both in the suffix and in the end of a string that was clipped before. */
  lemma ClipChangesBeyond(payload: Json, chars: Json -> nat, cost: char -> nat, budget: int, excess: nat)
    requires TextAdditive(chars, cost) && NearlyUnit(cost) && Landed(payload, chars, cost, budget)
    requires Candidate(Snippet, payload).Some? && 0 < excess <= MIN_SNIPPET_CHARS
    ensures RoundOf(Snippet, payload, excess).Some?
    ensures var after := Beyond(payload, chars, budget) - excess + 15 + cost('\n');
            var next := Beyond(AfterSnippet(payload, excess), chars, budget);
            && after - (cost('\n') - 1) <= next <= after
            && (!EndsWith(LongestSnippet(payload), OMISSION_SUFFIX) ==> next == after)
  {
    var text := LongestSnippet(payload);
    CandidateHolds(payload, PlainOrClipped(cost));
    CostOfEnd(cost, text, |text| - excess);
    hide WellFormed, TextAdditive, NearlyUnit, EverySnippet, Candidate, RoundOf, Cost, EndsWith, LongestSnippet;
    ClipChangesCost(payload, chars, cost, excess);
  }

  lemma CostOfEnd(cost: char -> nat, text: string, keep: nat)
    requires NearlyUnit(cost) && IsPlainOrClipped(cost, text) && keep <= |text|
    ensures |text| - keep <= Cost(cost, text[keep..]) <= |text| - keep - 1 + cost('\n')
    ensures !EndsWith(text, OMISSION_SUFFIX) ==> Cost(cost, text[keep..]) == |text| - keep
    ensures Cost(cost, OMISSION_SUFFIX) == 15 + cost('\n')
  {
    CostOfTail(cost, text, keep);
    CostOfSuffix(cost);
    if !EndsWith(text, OMISSION_SUFFIX) {
      CostButForOne(cost, text, -1, keep);
    }
  }

  /** Four over, a plain string loses 16 characters and gains the suffix: it is as long as before
      and still the longest. */
  lemma PlainTurn(payload: Json)
    requires WellFormed(payload) && Candidate(Snippet, payload).Some?
    ensures RoundOf(Snippet, payload, 16).Some?
    ensures var next, text := AfterSnippet(payload, 16), LongestSnippet(payload);
            && Candidate(Snippet, next) == Some(Visit(Candidate(Snippet, payload).value.path, Text(Clipped(text, 16))))
            && LongestSnippet(next) == Clipped(text, 16) && EndsWith(LongestSnippet(next), OMISSION_SUFFIX)
  {
    AfterSnippetIs(payload, 16);
    hide WellFormed, RoundOf, AfterSnippet, Candidate;
    SameLengthStaysLongest(payload, Clipped(LongestSnippet(payload), 16));
  }

  lemma EquallyShort(payload: Json, path: Path, a: string, b: string)
    requires WellFormed(payload) && Get(payload, path).Some? && |a| == |b| && IsSnippetKey(ParentKey(path))
    requires EverySnippet(Put(payload, path, Text(a)), None, IsShort)
    ensures EverySnippet(Put(payload, path, Text(b)), None, IsShort)
  {
    var put := Put(payload, path, Text(a));
    GetAfterPut(payload, path, Text(a));
    EveryPart(put, None, path, IsShort);
    KeyAlongIsParentKey(path);
    EveryAfterPut(put, None, path, Text(b), IsShort);
    PutTwice(payload, path, Text(a), Text(b));
  }

  /** Shortening after a plain turn leaves a long snippet exactly when shortening at once does. */
  lemma ShortensAlike(payload: Json)
    requires WellFormed(payload) && Candidate(Snippet, payload).Some?
    ensures RoundOf(Snippet, payload, 16).Some? && RoundOf(Snippet, payload, 20).Some?
    ensures var next := AfterSnippet(payload, 16);
            && RoundOf(Snippet, next, 20).Some?
            && (Candidate(Snippet, AfterSnippet(next, 20)).None? <==> Candidate(Snippet, AfterSnippet(payload, 20)).None?)
  {
    hide WellFormed, EverySnippet, Candidate, RoundOf, AfterSnippet, LongestSnippet, Clipped;
    AfterSnippetIs(payload, 16);
    AfterSnippetIs(payload, 20);
    ClippedLength(LongestSnippet(payload), 16);
    ClippedLength(LongestSnippet(payload), 20);
    ClippedLength(Clipped(LongestSnippet(payload), 16), 20);
    var v, text, next := Candidate(Snippet, payload).value, LongestSnippet(payload), AfterSnippet(payload, 16);
    var longer, a, b := Clipped(text, 16), Clipped(Clipped(text, 16), 20), Clipped(text, 20);
    SameLengthStaysLongest(payload, longer);
    AfterSnippetIs(next, 20);
    PutTwice(payload, v.path, Text(longer), Text(a));
    NoneLeftMeansShort(AfterSnippet(next, 20));
    NoneLeftMeansShort(AfterSnippet(payload, 20));
    if EverySnippet(Put(payload, v.path, Text(a)), None, IsShort) {
      EquallyShort(payload, v.path, a, b);
    } else if EverySnippet(Put(payload, v.path, Text(b)), None, IsShort) {
      EquallyShort(payload, v.path, b, a);
    }
  }

  // ---------------------------------------------------------------------------
  // Where there is no more progress.
  // ---------------------------------------------------------------------------

  predicate OnlySnippets(dropped: seq<Drop>) {
    forall i :: 0 <= i < |dropped| ==> dropped[i].kind == Snippet
  }

  /** The loop has stopped, or has cut a list: no snippet over 80 characters is left. */
  ghost predicate Through(p: Progress) {
    p.stopped || !OnlySnippets(p.dropped)
  }

  /** Four over with a long snippet left, which ends with the suffix already or will without
      taking the prompt to five over. */
  ghost predicate Jammed(payload: Json, chars: Json -> nat, cost: char -> nat, budget: int) {
    && Landed(payload, chars, cost, budget) && Candidate(Snippet, payload).Some?
    && Beyond(payload, chars, budget) <= 16
    && (EndsWith(LongestSnippet(payload), OMISSION_SUFFIX) || Beyond(payload, chars, budget) + cost('\n') - 1 <= 16)
  }

  lemma JamTurn(payload: Json, chars: Json -> nat, cost: char -> nat, budget: int)
    requires TextAdditive(chars, cost) && NearlyUnit(cost) && Jammed(payload, chars, cost, budget)
    ensures Tokens(chars)(payload) == budget + 4
    ensures RoundOf(Snippet, payload, 16).Some? && Jammed(AfterSnippet(payload, 16), chars, cost, budget)
  {
    TokensOver(payload, chars, cost, budget);
    ClipLandsAgain(payload, chars, cost, budget);
    hide TextAdditive, NearlyUnit, Landed, RoundOf, AfterSnippet, LongestSnippet, EndsWith, Tokens;
    if EndsWith(LongestSnippet(payload), OMISSION_SUFFIX) {
      StuckRound(payload);
    } else {
      PlainTurn(payload);
      ClipChangesBeyond(payload, chars, cost, budget, 16);
    }
  }

  lemma StuckRound(payload: Json)
    requires WellFormed(payload) && Candidate(Snippet, payload).Some?
    requires EndsWith(LongestSnippet(payload), OMISSION_SUFFIX)
    ensures RoundOf(Snippet, payload, 16).Some? && AfterSnippet(payload, 16) == payload
  {
    SnippetRoundIsNoChangeExactly(payload, 16);
  }

  /** A turn that has a snippet to trim. */
  lemma OneSnippetTurn(p: Progress, measure: Json -> int, budget: int)
    requires WellFormed(p.payload) && !p.stopped
    requires var excess := (measure(p.payload) - budget) * 4;
             excess > 0 && RoundOf(Snippet, p.payload, excess).Some?
    ensures var next, excess := Next(p, SnippetsThenLists, measure, budget), (measure(p.payload) - budget) * 4;
            && next.payload == AfterSnippet(p.payload, excess) && !next.stopped
            && (OnlySnippets(p.dropped) ==> OnlySnippets(next.dropped))
  {
    hide WellFormed, Next, LongestSnippet, Clipped, Candidate, OnlySnippets;
    assert Candidate(Snippet, p.payload).Some?;
    var trim := SnippetNext(p, measure, budget);
    OneMoreDrop(p.dropped, trim.drop);
  }

  lemma OneMoreDrop(dropped: seq<Drop>, drop: Drop)
    requires OnlySnippets(dropped) ==> drop.kind == Snippet
    ensures OnlySnippets(dropped) ==> OnlySnippets(dropped + [drop])
  {
  }

  /** A property of payloads over budget with a snippet left, which trimming it keeps. */
  ghost predicate KeepsTrimming(jam: Json -> bool, measure: Json -> int, budget: int) {
    forall j :: jam(j) ==>
      var excess := (measure(j) - budget) * 4;
      && WellFormed(j) && excess > 0 && RoundOf(Snippet, j, excess).Some?
      && jam(AfterSnippet(j, excess))
  }

  lemma KeptOnce(j: Json, jam: Json -> bool, measure: Json -> int, budget: int)
    requires KeepsTrimming(jam, measure, budget) && jam(j)
    ensures var excess := (measure(j) - budget) * 4;
            WellFormed(j) && excess > 0 && RoundOf(Snippet, j, excess).Some? && jam(AfterSnippet(j, excess))
  {
    hide WellFormed, RoundOf, AfterSnippet;
  }

  /** Where such a property holds the loop trims snippets for good. */
  lemma {:induction false} SnippetsForGood(payload: Json, jam: Json -> bool, measure: Json -> int, budget: int, n: nat)
    requires WellFormed(payload) && jam(payload) && KeepsTrimming(jam, measure, budget)
    ensures var end := AfterRounds(payload, SnippetsThenLists, measure, budget, n);
            !end.stopped && OnlySnippets(end.dropped) && jam(end.payload)
  {
    hide WellFormed, RoundOf, AfterRounds, Next, OnlySnippets, AfterSnippet, KeepsTrimming;
    if n == 0 {
      NoRounds(payload, SnippetsThenLists, measure, budget);
    } else {
      SnippetsForGood(payload, jam, measure, budget, n - 1);
      var before := AfterRounds(payload, SnippetsThenLists, measure, budget, n - 1);
      KeptOnce(before.payload, jam, measure, budget);
      OneMoreTurn(payload, SnippetsThenLists, measure, budget, n - 1);
      OneSnippetTurn(before, measure, budget);
    }
  }

  lemma NoRounds(payload: Json, order: Order, measure: Json -> int, budget: int)
    requires WellFormed(payload)
    ensures AfterRounds(payload, order, measure, budget, 0) == Progress(payload, [], false) && OnlySnippets([])
  {
  }

  /** Once jammed the loop clips snippets for good: it never fits and never cuts a list. */
  lemma JamIsForGood(payload: Json, chars: Json -> nat, cost: char -> nat, budget: int, n: nat)
    requires TextAdditive(chars, cost) && NearlyUnit(cost) && Jammed(payload, chars, cost, budget)
    ensures WellFormed(payload)
    ensures var end := AfterRounds(payload, SnippetsThenLists, Tokens(chars), budget, n);
            !Through(end) && Jammed(end.payload, chars, cost, budget)
  {
    var jam := (j: Json) => Jammed(j, chars, cost, budget);
    assert KeepsTrimming(jam, Tokens(chars), budget) by {
      forall j | jam(j)
        ensures WellFormed(j) && (Tokens(chars)(j) - budget) * 4 == 16 && RoundOf(Snippet, j, 16).Some? && jam(AfterSnippet(j, 16))
      {
        JamTurn(j, chars, cost, budget);
      }
      hide WellFormed, Jammed, RoundOf, AfterSnippet;
    }
    SnippetsForGood(payload, jam, Tokens(chars), budget, n);
  }

  // ---------------------------------------------------------------------------
  // Running on from the first turn.
  // ---------------------------------------------------------------------------

  ghost predicate ThroughAfter(payload: Json, measure: Json -> int, budget: int, n: nat)
    requires WellFormed(payload)
  {
    Through(AfterRounds(payload, SnippetsThenLists, measure, budget, n))
  }

  lemma RecordDoesNotMatter(p: Progress, before: seq<Drop>, order: Order, measure: Json -> int, budget: int)
    requires WellFormed(p.payload)
    ensures var next := Next(p, order, measure, budget);
            Next(p.(dropped := before + p.dropped), order, measure, budget) == next.(dropped := before + next.dropped)
  {
    hide WellFormed, Round;
  }

  lemma FirstTurn(payload: Json, order: Order, measure: Json -> int, budget: int)
    requires WellFormed(payload)
    ensures AfterRounds(payload, order, measure, budget, 1) == Next(Progress(payload, [], false), order, measure, budget)
  {
    NoRounds(payload, order, measure, budget);
    OneMoreTurn(payload, order, measure, budget, 0);
  }

  /** A run is its first turn and a run from there. */
  lemma {:induction false} FirstTurnThenRest(payload: Json, order: Order, measure: Json -> int, budget: int, n: nat)
    requires WellFormed(payload) && !Next(Progress(payload, [], false), order, measure, budget).stopped
    ensures var first := Next(Progress(payload, [], false), order, measure, budget);
            var rest := AfterRounds(first.payload, order, measure, budget, n);
            AfterRounds(payload, order, measure, budget, n + 1) == rest.(dropped := first.dropped + rest.dropped)
  {
    hide WellFormed, Next, AfterRounds;
    var first := Next(Progress(payload, [], false), order, measure, budget);
    if n == 0 {
      NoRounds(first.payload, order, measure, budget);
      FirstTurn(payload, order, measure, budget);
    } else {
      FirstTurnThenRest(payload, order, measure, budget, n - 1);
      var rest := AfterRounds(first.payload, order, measure, budget, n - 1);
      if rest.stopped {
        StoppedForGood(payload, order, measure, budget, n, n + 1);
        StoppedForGood(first.payload, order, measure, budget, n - 1, n);
      } else {
        OneMoreTurn(payload, order, measure, budget, n);
        OneMoreTurn(first.payload, order, measure, budget, n - 1);
        RecordDoesNotMatter(rest, first.dropped, order, measure, budget);
      }
    }
  }

  lemma FirstSnippetTurn(payload: Json, measure: Json -> int, budget: int, excess: nat)
    requires WellFormed(payload) && excess == (measure(payload) - budget) * 4 > 0
    requires RoundOf(Snippet, payload, excess).Some?
    ensures var first := Next(Progress(payload, [], false), SnippetsThenLists, measure, budget);
            !first.stopped && first.payload == AfterSnippet(payload, excess) && OnlySnippets(first.dropped)
  {
    hide WellFormed, Next, LongestSnippet, Clipped;
    var trim := SnippetNext(Progress(payload, [], false), measure, budget);
  }

  /** A first turn that trims a snippet does not change whether the loop gets through. */
  lemma ThroughLater(payload: Json, measure: Json -> int, budget: int, excess: nat, n: nat)
    requires WellFormed(payload) && excess == (measure(payload) - budget) * 4 > 0
    requires RoundOf(Snippet, payload, excess).Some?
    ensures ThroughAfter(payload, measure, budget, n)
            <==> n > 0 && ThroughAfter(AfterSnippet(payload, excess), measure, budget, n - 1)
  {
    hide WellFormed, RoundOf, Next, AfterSnippet, AfterRounds;
    if n == 0 {
      NoRounds(payload, SnippetsThenLists, measure, budget);
    } else {
      FirstSnippetTurn(payload, measure, budget, excess);
      FirstTurnThenRest(payload, SnippetsThenLists, measure, budget, n - 1);
      var first := Next(Progress(payload, [], false), SnippetsThenLists, measure, budget);
      OnlySnippetsInBoth(first.dropped, AfterRounds(first.payload, SnippetsThenLists, measure, budget, n - 1).dropped);
    }
  }

  lemma OnlySnippetsInBoth(a: seq<Drop>, b: seq<Drop>)
    ensures OnlySnippets(a + b) <==> OnlySnippets(a) && OnlySnippets(b)
  {
    assert forall i :: 0 <= i < |b| ==> (a + b)[|a| + i] == b[i];
    assert forall i :: 0 <= i < |a| ==> (a + b)[i] == a[i];
  }

  lemma {:induction false} ThroughStays(payload: Json, measure: Json -> int, budget: int, m: nat, n: nat)
    requires WellFormed(payload) && m <= n && ThroughAfter(payload, measure, budget, m)
    ensures ThroughAfter(payload, measure, budget, n)
  {
    hide WellFormed, AfterRounds, Next, OnlySnippets;
    if m < n {
      ThroughStays(payload, measure, budget, m, n - 1);
      var before := AfterRounds(payload, SnippetsThenLists, measure, budget, n - 1);
      if before.stopped {
        StoppedForGood(payload, SnippetsThenLists, measure, budget, n - 1, n);
      } else {
        OneMoreTurn(payload, SnippetsThenLists, measure, budget, n - 1);
        RecordGrows(before, SnippetsThenLists, measure, budget);
      }
    }
  }

  lemma RecordGrows(p: Progress, order: Order, measure: Json -> int, budget: int)
    requires WellFormed(p.payload) && !OnlySnippets(p.dropped)
    ensures !OnlySnippets(Next(p, order, measure, budget).dropped)
  {
    var next := Next(p, order, measure, budget);
    hide WellFormed, Round;
    var i :| 0 <= i < |p.dropped| && p.dropped[i].kind != Snippet;
    assert next.dropped[i] == p.dropped[i];
  }

  /** With nothing over budget, or no long snippet, one turn is enough. */
  lemma OneTurnIsEnough(payload: Json, measure: Json -> int, budget: int)
    requires WellFormed(payload)
    requires measure(payload) <= budget || Candidate(Snippet, payload).None?
    ensures ThroughAfter(payload, measure, budget, 1)
  {
    hide WellFormed, AfterRounds, Candidate, Next;
    FirstTurn(payload, SnippetsThenLists, measure, budget);
    StopsOrCutsAList(Progress(payload, [], false), measure, budget);
  }

  lemma StopsOrCutsAList(p: Progress, measure: Json -> int, budget: int)
    requires WellFormed(p.payload)
    requires measure(p.payload) <= budget || Candidate(Snippet, p.payload).None?
    ensures Through(Next(p, SnippetsThenLists, measure, budget))
  {
    var next := Next(p, SnippetsThenLists, measure, budget);
    hide WellFormed, Candidate;
    if !next.stopped {
      assert next.dropped[|p.dropped|].kind == Items;
    }
  }

  // ---------------------------------------------------------------------------
  // When the loop gets through.
  // ---------------------------------------------------------------------------

  /** After the first clip: no long snippet is left; or the only one is at most four characters
      too long, and the prompt is five over, or will be once that one, not clipped yet, is. */
  ghost predicate LetsThrough(payload: Json, chars: Json -> nat, cost: char -> nat, budget: int)
    requires WellFormed(payload)
  {
    RoundOf(Snippet, payload, 20).None?
    || (Candidate(Snippet, AfterSnippet(payload, 20)).None?
        && (Beyond(payload, chars, budget) == 17
            || (Beyond(payload, chars, budget) + cost('\n') - 1 == 17 && !EndsWith(LongestSnippet(payload), OMISSION_SUFFIX))))
  }

  lemma FiveOverShortens(payload: Json, chars: Json -> nat, cost: char -> nat, budget: int)
    requires TextAdditive(chars, cost) && NearlyUnit(cost) && Landed(payload, chars, cost, budget)
    requires Candidate(Snippet, payload).Some? && Beyond(payload, chars, budget) == 17
    ensures WellFormed(payload) && RoundOf(Snippet, payload, 20).Some? && (Tokens(chars)(payload) - budget) * 4 == 20
    ensures var next := AfterSnippet(payload, 20);
            Candidate(Snippet, next).None? || Jammed(next, chars, cost, budget)
  {
    hide TextAdditive, NearlyUnit, WellFormed, EverySnippet, FourOver, AfterSnippet, RoundOf, Candidate, LongestSnippet, Tokens;
    TokensOver(payload, chars, cost, budget);
    ClipLandsAgain(payload, chars, cost, budget);
    ClipChangesBeyond(payload, chars, cost, budget, 20);
  }

  lemma FromFiveOver(payload: Json, chars: Json -> nat, cost: char -> nat, budget: int, n: nat)
    requires TextAdditive(chars, cost) && NearlyUnit(cost) && Landed(payload, chars, cost, budget)
    requires Candidate(Snippet, payload).Some? && Beyond(payload, chars, budget) == 17
    ensures WellFormed(payload) && RoundOf(Snippet, payload, 20).Some?
    ensures Candidate(Snippet, AfterSnippet(payload, 20)).None? ==> ThroughAfter(payload, Tokens(chars), budget, 2)
    ensures Candidate(Snippet, AfterSnippet(payload, 20)).Some? ==> !ThroughAfter(payload, Tokens(chars), budget, n)
  {
    hide WellFormed, TextAdditive, NearlyUnit, Landed, Jammed, AfterSnippet, RoundOf, Candidate, LongestSnippet, Tokens, ThroughAfter;
    FiveOverShortens(payload, chars, cost, budget);
    var next := AfterSnippet(payload, 20);
    if Candidate(Snippet, next).None? {
      OneTurnIsEnough(next, Tokens(chars), budget);
      ThroughLater(payload, Tokens(chars), budget, 20, 2);
    } else {
      ThroughLater(payload, Tokens(chars), budget, 20, n);
      if n > 0 {
        NeverFromAJam(next, chars, cost, budget, n - 1);
      }
    }
  }

  lemma NeverFromAJam(payload: Json, chars: Json -> nat, cost: char -> nat, budget: int, n: nat)
    requires TextAdditive(chars, cost) && NearlyUnit(cost) && Jammed(payload, chars, cost, budget)
    ensures WellFormed(payload) && !ThroughAfter(payload, Tokens(chars), budget, n)
  {
    JamIsForGood(payload, chars, cost, budget, n);
  }

  /** After the first clip the loop gets through in three more turns or never. */
  lemma ThreeTurnsOrNever(payload: Json, chars: Json -> nat, cost: char -> nat, budget: int, n: nat)
    requires TextAdditive(chars, cost) && NearlyUnit(cost) && Landed(payload, chars, cost, budget)
    ensures WellFormed(payload)
    ensures LetsThrough(payload, chars, cost, budget) ==> ThroughAfter(payload, Tokens(chars), budget, 3)
    ensures !LetsThrough(payload, chars, cost, budget) ==> !ThroughAfter(payload, Tokens(chars), budget, n)
  {
    TokensOver(payload, chars, cost, budget);
    assert WellFormed(payload);
    var beyond := Beyond(payload, chars, budget);
    if Candidate(Snippet, payload).None? {
      OneTurnIsEnough(payload, Tokens(chars), budget);
      ThroughStays(payload, Tokens(chars), budget, 1, 3);
    } else if beyond == 17 {
      FromFiveOver(payload, chars, cost, budget, n);
      hide WellFormed, AfterSnippet, RoundOf, Tokens, ThroughAfter;
      if LetsThrough(payload, chars, cost, budget) {
        ThroughStays(payload, Tokens(chars), budget, 2, 3);
      }
    } else if EndsWith(LongestSnippet(payload), OMISSION_SUFFIX) || beyond + cost('\n') - 1 <= 16 {
      NeverFromAJam(payload, chars, cost, budget, n);
    } else {
      FromSixteenBeyond(payload, chars, cost, budget, n);
    }
  }

  lemma SixteenBeyondClips(payload: Json, chars: Json -> nat, cost: char -> nat, budget: int)
    requires TextAdditive(chars, cost) && NearlyUnit(cost) && Landed(payload, chars, cost, budget)
    requires Candidate(Snippet, payload).Some? && !EndsWith(LongestSnippet(payload), OMISSION_SUFFIX)
    requires Beyond(payload, chars, budget) == 16 && cost('\n') == 2
    ensures WellFormed(payload) && RoundOf(Snippet, payload, 16).Some? && (Tokens(chars)(payload) - budget) * 4 == 16
    ensures var next := AfterSnippet(payload, 16);
            Landed(next, chars, cost, budget) && Candidate(Snippet, next).Some? && Beyond(next, chars, budget) == 17
  {
    hide TextAdditive, NearlyUnit, WellFormed, EverySnippet, FourOver, AfterSnippet, RoundOf, Candidate, LongestSnippet, EndsWith, Tokens;
    TokensOver(payload, chars, cost, budget);
    ClipLandsAgain(payload, chars, cost, budget);
    ClipChangesBeyond(payload, chars, cost, budget, 16);
    PlainTurn(payload);
  }

  lemma FromSixteenBeyond(payload: Json, chars: Json -> nat, cost: char -> nat, budget: int, n: nat)
    requires TextAdditive(chars, cost) && NearlyUnit(cost) && Landed(payload, chars, cost, budget)
    requires Candidate(Snippet, payload).Some? && !EndsWith(LongestSnippet(payload), OMISSION_SUFFIX)
    requires Beyond(payload, chars, budget) == 16 && cost('\n') == 2
    ensures WellFormed(payload) && RoundOf(Snippet, payload, 20).Some?
    ensures Candidate(Snippet, AfterSnippet(payload, 20)).None? ==> ThroughAfter(payload, Tokens(chars), budget, 3)
    ensures Candidate(Snippet, AfterSnippet(payload, 20)).Some? ==> !ThroughAfter(payload, Tokens(chars), budget, n)
  {
    hide WellFormed, TextAdditive, NearlyUnit, Landed, AfterSnippet, RoundOf, Candidate, LongestSnippet, EndsWith, Tokens, ThroughAfter, Beyond;
    SixteenBeyondClips(payload, chars, cost, budget);
    ShortensAlike(payload);
    FromFiveOver(AfterSnippet(payload, 16), chars, cost, budget, if n > 0 then n - 1 else 0);
    ThroughLater(payload, Tokens(chars), budget, 16, 3);
    ThroughLater(payload, Tokens(chars), budget, 16, n);
  }

  /** The prompt fits; or has no long snippet; or its longest one goes whole and what is left gets
      through; or it is clipped and that lets the loop through. */
  ghost predicate GetsThrough(payload: Json, chars: Json -> nat, cost: char -> nat, budget: int)
    requires WellFormed(payload)
    decreases Weight(payload)
  {
    var excess := (Tokens(chars)(payload) - budget) * 4;
    if excess <= 0 || RoundOf(Snippet, payload, excess).None? then true
    else if excess >= |LongestSnippet(payload)| then
      LighterWhenWhole(payload, excess);
      GetsThrough(AfterSnippet(payload, excess), chars, cost, budget)
    else LetsThrough(AfterSnippet(payload, excess), chars, cost, budget)
  }

  lemma LighterWhenWhole(payload: Json, excess: nat)
    requires WellFormed(payload) && RoundOf(Snippet, payload, excess).Some? && excess >= |LongestSnippet(payload)|
    ensures Weight(AfterSnippet(payload, excess)) < Weight(payload)
  {
    CandidateIsVisited(Snippet, payload);
    SnippetRoundShrinksExactly(payload, excess);
  }

  /** A payload whose snippets were never clipped. */
  ghost predicate Unclipped(payload: Json, cost: char -> nat) {
    WellFormed(payload) && EverySnippet(payload, None, Plain(cost))
  }

  /** Its first turn: the longest snippet goes whole, or is clipped. */
  lemma FromUnclipped(payload: Json, chars: Json -> nat, cost: char -> nat, budget: int, excess: nat)
    requires TextAdditive(chars, cost) && NearlyUnit(cost) && Unclipped(payload, cost)
    requires excess == (Tokens(chars)(payload) - budget) * 4 > 0 && Candidate(Snippet, payload).Some?
    ensures WellFormed(payload) && RoundOf(Snippet, payload, excess).Some?
    ensures var next := AfterSnippet(payload, excess);
            if excess >= |LongestSnippet(payload)| then Unclipped(next, cost) else Landed(next, chars, cost, budget)
  {
    CandidateHolds(payload, Plain(cost));
    EveryWeaker(payload, None, Plain(cost), PlainOrClipped(cost));
    hide TextAdditive, NearlyUnit, EverySnippet, WellFormed, RoundOf, FourOver, Candidate, LongestSnippet, Tokens;
    AfterSnippetIs(payload, excess);
    if excess >= |LongestSnippet(payload)| {
      SnippetRoundHolds(payload, excess, Plain(cost));
    } else {
      ClippedIsPlainOrClipped(cost, LongestSnippet(payload), excess);
      SnippetRoundHolds(payload, excess, PlainOrClipped(cost));
      ClipLeavesFourOver(payload, chars, cost, budget);
    }
  }

  lemma {:induction false} TurnsToGetThrough(payload: Json, chars: Json -> nat, cost: char -> nat, budget: int) returns (n: nat)
    requires TextAdditive(chars, cost) && NearlyUnit(cost) && Unclipped(payload, cost)
    requires GetsThrough(payload, chars, cost, budget)
    ensures ThroughAfter(payload, Tokens(chars), budget, n)
    decreases Weight(payload)
  {
    hide WellFormed, TextAdditive, NearlyUnit, Landed, LetsThrough, GetsThrough, AfterSnippet, RoundOf, Candidate, LongestSnippet, ThroughAfter, Tokens, EverySnippet;
    var excess := (Tokens(chars)(payload) - budget) * 4;
    if excess <= 0 || Candidate(Snippet, payload).None? {
      OneTurnIsEnough(payload, Tokens(chars), budget);
      n := 1;
    } else {
      FromUnclipped(payload, chars, cost, budget, excess);
      LetsThroughIsDue(payload, chars, cost, budget, excess);
      var next := AfterSnippet(payload, excess);
      if excess >= |LongestSnippet(payload)| {
        LighterWhenWhole(payload, excess);
        n := TurnsToGetThrough(next, chars, cost, budget);
      } else {
        n := 3;
        ThreeTurnsOrNever(next, chars, cost, budget, 3);
      }
      ThroughLater(payload, Tokens(chars), budget, excess, n + 1);
      n := n + 1;
    }
  }

  /** What getting through means where the first turn trims a snippet. */
  lemma LetsThroughIsDue(payload: Json, chars: Json -> nat, cost: char -> nat, budget: int, excess: nat)
    requires WellFormed(payload) && excess == (Tokens(chars)(payload) - budget) * 4 > 0
    requires RoundOf(Snippet, payload, excess).Some?
    ensures GetsThrough(payload, chars, cost, budget)
            <==> if excess >= |LongestSnippet(payload)| then GetsThrough(AfterSnippet(payload, excess), chars, cost, budget)
                 else LetsThrough(AfterSnippet(payload, excess), chars, cost, budget)
  {
    hide WellFormed, LetsThrough, AfterSnippet, RoundOf, LongestSnippet;
  }

  lemma NotThroughMeansOver(payload: Json, chars: Json -> nat, cost: char -> nat, budget: int)
    requires WellFormed(payload) && !GetsThrough(payload, chars, cost, budget)
    ensures (Tokens(chars)(payload) - budget) * 4 > 0 && Candidate(Snippet, payload).Some?
  {
    hide WellFormed, LetsThrough, AfterSnippet;
  }

  lemma {:induction false} NeverThrough(payload: Json, chars: Json -> nat, cost: char -> nat, budget: int, n: nat)
    requires TextAdditive(chars, cost) && NearlyUnit(cost) && Unclipped(payload, cost)
    requires !GetsThrough(payload, chars, cost, budget)
    ensures !ThroughAfter(payload, Tokens(chars), budget, n)
    decreases n
  {
    hide WellFormed, TextAdditive, NearlyUnit, Landed, LetsThrough, GetsThrough, AfterSnippet, RoundOf, Candidate, LongestSnippet, ThroughAfter, Tokens, EverySnippet;
    NotThroughMeansOver(payload, chars, cost, budget);
    var excess := (Tokens(chars)(payload) - budget) * 4;
    FromUnclipped(payload, chars, cost, budget, excess);
    LetsThroughIsDue(payload, chars, cost, budget, excess);
    var next := AfterSnippet(payload, excess);
    ThroughLater(payload, Tokens(chars), budget, excess, n);
    if n > 0 {
      if excess >= |LongestSnippet(payload)| {
        NeverThrough(next, chars, cost, budget, n - 1);
      } else {
        ThreeTurnsOrNever(next, chars, cost, budget, n - 1);
      }
    }
  }

  /** Trimming the snippets first, the loop stops or gets to cutting lists exactly when the
      payload gets through. */
  lemma GetsThroughExactly(payload: Json, chars: Json -> nat, cost: char -> nat, budget: int)
    requires TextAdditive(chars, cost) && NearlyUnit(cost) && Unclipped(payload, cost)
    ensures GetsThrough(payload, chars, cost, budget)
            <==> exists n: nat :: ThroughAfter(payload, Tokens(chars), budget, n)
  {
    hide TextAdditive, NearlyUnit, EverySnippet, GetsThrough, ThroughAfter;
    if GetsThrough(payload, chars, cost, budget) {
      var n := TurnsToGetThrough(payload, chars, cost, budget);
    } else {
      forall n: nat ensures !ThroughAfter(payload, Tokens(chars), budget, n) {
        NeverThrough(payload, chars, cost, budget, n);
      }
    }
  }

  // ---------------------------------------------------------------------------
  // Long snippets.
  // ---------------------------------------------------------------------------

  lemma LongestIsNoShorter(payload: Json, path: Path, text: string)
    requires WellFormed(payload) && Get(payload, path) == Some(Text(text)) && IsSnippetKey(ParentKey(path))
    requires path != [] && |text| > MIN_SNIPPET_CHARS
    ensures Candidate(Snippet, payload).Some? && |LongestSnippet(payload)| >= |text|
  {
    var visits := Walk(payload, []);
    LongestIsTheFirstMaximum(Snippet, visits, |visits|);
    ReadsAreVisited(payload, path, []);
    assert [] + path == path;
    var i :| 0 <= i < |visits| && visits[i] == Visit(path, Text(text));
    assert Length(Snippet, visits[i]) == |text|;
    CandidateIsVisited(Snippet, payload);
  }

  /** A clip that keeps something leaves a snippet at least as long as what it leaves of its own. */
  lemma ClipLeavesASnippet(payload: Json, excess: nat)
    requires WellFormed(payload) && Candidate(Snippet, payload).Some?
    requires 0 < excess < |LongestSnippet(payload)| - 64
    ensures RoundOf(Snippet, payload, excess).Some?
    ensures var next := AfterSnippet(payload, excess);
            Candidate(Snippet, next).Some? && |LongestSnippet(next)| >= |LongestSnippet(payload)| - excess + 16
  {
    hide WellFormed, RoundOf, AfterSnippet, Candidate, LongestSnippet, Clipped;
    AfterSnippetIs(payload, excess);
    var v, text := Candidate(Snippet, payload).value, LongestSnippet(payload);
    ClippedLength(text, excess);
    GetAfterPut(payload, v.path, Text(Clipped(text, excess)));
    LongestIsNoShorter(AfterSnippet(payload, excess), v.path, Clipped(text, excess));
  }

  /** Such a snippet does not let the loop through. */
  lemma LongSnippetStays(payload: Json, chars: Json -> nat, cost: char -> nat, budget: int)
    requires NearlyUnit(cost) && Landed(payload, chars, cost, budget) && Candidate(Snippet, payload).Some?
    requires |LongestSnippet(payload)| > 80 + 4 * (cost('\n') - 1)
    ensures !LetsThrough(payload, chars, cost, budget)
  {
    AfterSnippetIs(payload, 20);
    if cost('\n') == 2 {
      ClipLeavesASnippet(payload, 20);
    }
  }

  /** A property that trimming a snippet keeps. */
  ghost predicate SurvivesClips(inv: Json -> bool, measure: Json -> int, budget: int) {
    forall j :: inv(j) ==> WellFormed(j) && SurvivesClip(j, inv, (measure(j) - budget) * 4)
  }

  ghost predicate SurvivesClip(j: Json, inv: Json -> bool, excess: int)
    requires WellFormed(j)
  {
    Candidate(Snippet, j).Some? ==> excess > 0 && RoundOf(Snippet, j, excess).Some? && inv(AfterSnippet(j, excess))
  }

  lemma ClippedOnce(p: Progress, inv: Json -> bool, measure: Json -> int, budget: int)
    requires WellFormed(p.payload) && !p.stopped && inv(p.payload) && SurvivesClips(inv, measure, budget)
    ensures var next := Next(p, SnippetsThenLists, measure, budget);
            Through(next) || inv(next.payload)
  {
    hide WellFormed, RoundOf, Candidate, AfterSnippet, Next, OnlySnippets;
    if Candidate(Snippet, p.payload).None? {
      StopsOrCutsAList(p, measure, budget);
    } else {
      assert SurvivesClip(p.payload, inv, (measure(p.payload) - budget) * 4);
      hide SurvivesClips;
      OneSnippetTurn(p, measure, budget);
    }
  }

  /** While the loop has not got through it holds. */
  lemma {:induction false} HoldsUntilThrough(payload: Json, inv: Json -> bool, measure: Json -> int, budget: int, n: nat)
    requires WellFormed(payload) && inv(payload) && SurvivesClips(inv, measure, budget)
    requires !ThroughAfter(payload, measure, budget, n)
    ensures inv(AfterRounds(payload, SnippetsThenLists, measure, budget, n).payload)
  {
    hide WellFormed, AfterRounds, Next, OnlySnippets, SurvivesClips;
    if n == 0 {
      NoRounds(payload, SnippetsThenLists, measure, budget);
    } else {
      if ThroughAfter(payload, measure, budget, n - 1) {
        ThroughStays(payload, measure, budget, n - 1, n);
      }
      HoldsUntilThrough(payload, inv, measure, budget, n - 1);
      OneMoreTurn(payload, SnippetsThenLists, measure, budget, n - 1);
      ClippedOnce(AfterRounds(payload, SnippetsThenLists, measure, budget, n - 1), inv, measure, budget);
    }
  }

  lemma StillLanded(payload: Json, chars: Json -> nat, cost: char -> nat, budget: int, n: nat)
    requires TextAdditive(chars, cost) && NearlyUnit(cost) && Landed(payload, chars, cost, budget) && WellFormed(payload)
    requires !ThroughAfter(payload, Tokens(chars), budget, n)
    ensures Landed(AfterRounds(payload, SnippetsThenLists, Tokens(chars), budget, n).payload, chars, cost, budget)
  {
    var inv := (j: Json) => Landed(j, chars, cost, budget);
    forall j | inv(j) ensures WellFormed(j) && SurvivesClip(j, inv, (Tokens(chars)(j) - budget) * 4) {
      assert WellFormed(j);
      if Candidate(Snippet, j).Some? {
        ClipLandsAgain(j, chars, cost, budget);
      }
      hide WellFormed, Landed, RoundOf, AfterSnippet, Candidate, TextAdditive;
    }
    hide WellFormed, Landed, AfterRounds, SurvivesClip;
    HoldsUntilThrough(payload, inv, Tokens(chars), budget, n);
  }

  /** A snippet longer than the excess by more than 64 characters, or 68 where a newline costs two,
      is never got through, whatever the overage and whatever else could be cut: after every turn
      the prompt is four or five tokens over and no list has been cut. */
  lemma LongSnippetNeverFits(payload: Json, chars: Json -> nat, cost: char -> nat, budget: int, n: nat)
    requires TextAdditive(chars, cost) && NearlyUnit(cost) && Unclipped(payload, cost) && n > 0
    requires 0 < (Tokens(chars)(payload) - budget) * 4 < |LongestSnippet(payload)| - 64 - 4 * (cost('\n') - 1)
    ensures !GetsThrough(payload, chars, cost, budget)
    ensures var end := AfterRounds(payload, SnippetsThenLists, Tokens(chars), budget, n);
            && !end.stopped && OnlySnippets(end.dropped)
            && budget + 4 <= Tokens(chars)(end.payload) <= budget + 3 + cost('\n')
  {
    hide TextAdditive, NearlyUnit, Landed, EverySnippet, GetsThrough, AfterRounds, LongestSnippet, Tokens, OnlySnippets, ThroughAfter;
    LongSnippetStaysLanded(payload, chars, cost, budget, n);
    CostsAtMostTwo(cost);
    NotThrough(payload, Tokens(chars), budget, n);
    TokensOver(AfterRounds(payload, SnippetsThenLists, Tokens(chars), budget, n).payload, chars, cost, budget);
  }

  lemma CostsAtMostTwo(cost: char -> nat)
    requires NearlyUnit(cost)
    ensures 1 <= cost('\n') <= 2
  {
  }

  lemma NotThrough(payload: Json, measure: Json -> int, budget: int, n: nat)
    requires WellFormed(payload) && !ThroughAfter(payload, measure, budget, n)
    ensures var end := AfterRounds(payload, SnippetsThenLists, measure, budget, n);
            !end.stopped && OnlySnippets(end.dropped)
  {
  }

  lemma LongSnippetStaysLanded(payload: Json, chars: Json -> nat, cost: char -> nat, budget: int, n: nat)
    requires TextAdditive(chars, cost) && NearlyUnit(cost) && Unclipped(payload, cost) && n > 0
    requires 0 < (Tokens(chars)(payload) - budget) * 4 < |LongestSnippet(payload)| - 64 - 4 * (cost('\n') - 1)
    ensures !GetsThrough(payload, chars, cost, budget) && !ThroughAfter(payload, Tokens(chars), budget, n)
    ensures Landed(AfterRounds(payload, SnippetsThenLists, Tokens(chars), budget, n).payload, chars, cost, budget)
  {
    hide TextAdditive, NearlyUnit, Landed, EverySnippet, GetsThrough, AfterSnippet, RoundOf, LongestSnippet, AfterRounds, Tokens, ThroughAfter;
    var excess := (Tokens(chars)(payload) - budget) * 4;
    LongSnippetFirstTurn(payload, chars, cost, budget, excess);
    NeverThrough(payload, chars, cost, budget, n);
    LandedAfterFirst(payload, chars, cost, budget, excess, n);
  }

  lemma LandedAfterFirst(payload: Json, chars: Json -> nat, cost: char -> nat, budget: int, excess: nat, n: nat)
    requires TextAdditive(chars, cost) && NearlyUnit(cost) && WellFormed(payload) && n > 0
    requires excess == (Tokens(chars)(payload) - budget) * 4 > 0 && RoundOf(Snippet, payload, excess).Some?
    requires Landed(AfterSnippet(payload, excess), chars, cost, budget) && !ThroughAfter(payload, Tokens(chars), budget, n)
    ensures Landed(AfterRounds(payload, SnippetsThenLists, Tokens(chars), budget, n).payload, chars, cost, budget)
  {
    hide WellFormed, TextAdditive, NearlyUnit, Landed, AfterSnippet, RoundOf, AfterRounds, Tokens, ThroughAfter;
    ThroughLater(payload, Tokens(chars), budget, excess, n);
    StillLanded(AfterSnippet(payload, excess), chars, cost, budget, n - 1);
    SamePayload(payload, Tokens(chars), budget, excess, n - 1);
  }

  lemma SamePayload(payload: Json, measure: Json -> int, budget: int, excess: nat, n: nat)
    requires WellFormed(payload) && excess == (measure(payload) - budget) * 4 > 0
    requires RoundOf(Snippet, payload, excess).Some?
    ensures AfterRounds(payload, SnippetsThenLists, measure, budget, n + 1).payload
            == AfterRounds(AfterSnippet(payload, excess), SnippetsThenLists, measure, budget, n).payload
  {
    hide WellFormed, RoundOf, AfterSnippet, AfterRounds, Next;
    FirstSnippetTurn(payload, measure, budget, excess);
    FirstTurnThenRest(payload, SnippetsThenLists, measure, budget, n);
  }

  lemma LongSnippetFirstTurn(payload: Json, chars: Json -> nat, cost: char -> nat, budget: int, excess: nat)
    requires TextAdditive(chars, cost) && NearlyUnit(cost) && Unclipped(payload, cost)
    requires 0 < excess == (Tokens(chars)(payload) - budget) * 4 < |LongestSnippet(payload)| - 64 - 4 * (cost('\n') - 1)
    ensures WellFormed(payload) && RoundOf(Snippet, payload, excess).Some?
    ensures Landed(AfterSnippet(payload, excess), chars, cost, budget)
    ensures !GetsThrough(payload, chars, cost, budget)
  {
    assert 1 <= cost('\n') <= 2;
    assert LongestSnippet(payload) != "" ==> Candidate(Snippet, payload).Some?;
    hide WellFormed, TextAdditive, NearlyUnit, Landed, EverySnippet, LetsThrough, GetsThrough, AfterSnippet, RoundOf, LongestSnippet, Candidate, Tokens;
    FromUnclipped(payload, chars, cost, budget, excess);
    ClipLeavesASnippet(payload, excess);
    LongSnippetStays(AfterSnippet(payload, excess), chars, cost, budget);
    LetsThroughIsDue(payload, chars, cost, budget, excess);
  }
}
