/** Where trimming the snippets first gets to, when the prompt is measured in characters: each
    character of a string counts for some number of them, and four make a token. */
module PromptStall {
  import opened Options
  import opened JsonTrees
  import opened PromptBudget

  // ---------------------------------------------------------------------------
  // Measures that add up over the characters of strings.
  // ---------------------------------------------------------------------------

  function Cost(cost: char -> nat, text: string): nat {
    if text == "" then 0 else cost(text[0]) + Cost(cost, text[1..])
  }

  lemma {:induction false} CostAppend(cost: char -> nat, a: string, b: string)
    ensures Cost(cost, a + b) == Cost(cost, a) + Cost(cost, b)
  {
    if a == "" {
      assert a + b == b;
    } else {
      assert (a + b)[1..] == a[1..] + b;
      CostAppend(cost, a[1..], b);
    }
  }

  /** Exchanging a string changes the size by what the two strings cost. */
  ghost predicate TextAdditive(chars: Json -> nat, cost: char -> nat) {
    forall j, path, text: string | Get(j, path).Some? && Get(j, path).value.Text? ::
      chars(Put(j, path, Text(text))) == chars(j) - Cost(cost, Get(j, path).value.text) + Cost(cost, text)
  }

  /** `estimate_tokens` */
  function Tokens(chars: Json -> nat): Json -> int {
    j => (chars(j) + 3) / 4
  }

  /** Only the newline of the suffix may cost more than one. */
  predicate NearlyUnit(cost: char -> nat) {
    1 <= cost('\n') <= 2 && forall i :: 1 <= i < |OMISSION_SUFFIX| ==> cost(OMISSION_SUFFIX[i]) == 1
  }

  predicate IsPlain(cost: char -> nat, text: string) {
    forall i :: 0 <= i < |text| ==> cost(text[i]) == 1
  }

  /** Plain, but for the newline of a suffix at the end. */
  predicate IsPlainOrClipped(cost: char -> nat, text: string) {
    forall i :: 0 <= i < |text| && cost(text[i]) != 1 ==> EndsWith(text, OMISSION_SUFFIX) && i == |text| - |OMISSION_SUFFIX|
  }

  function Plain(cost: char -> nat): string -> bool {
    text => IsPlain(cost, text)
  }

  function PlainOrClipped(cost: char -> nat): string -> bool {
    text => IsPlainOrClipped(cost, text)
  }

  /** A string whose characters cost one, but for that at one place. */
  lemma {:induction false} CostButForOne(cost: char -> nat, text: string, at: int, keep: nat)
    requires keep <= |text| && forall i :: 0 <= i < |text| && i != at ==> cost(text[i]) == 1
    ensures Cost(cost, text[keep..]) == |text| - keep + if keep <= at < |text| then cost(text[at]) - 1 else 0
    decreases |text| - keep
  {
    if keep < |text| {
      assert text[keep..][1..] == text[keep + 1..];
      CostButForOne(cost, text, at, keep + 1);
    }
  }

  lemma CostOfSuffix(cost: char -> nat)
    requires NearlyUnit(cost)
    ensures Cost(cost, OMISSION_SUFFIX) == |OMISSION_SUFFIX| - 1 + cost('\n')
  {
    CostButForOne(cost, OMISSION_SUFFIX, 0, 0);
    assert OMISSION_SUFFIX[0..] == OMISSION_SUFFIX;
  }

  /** What the end of a string costs: its length, and one more for the newline of a suffix. */
  lemma CostOfTail(cost: char -> nat, text: string, keep: nat)
    requires NearlyUnit(cost) && IsPlainOrClipped(cost, text) && keep <= |text|
    ensures |text| - keep <= Cost(cost, text[keep..]) <= |text| - keep - 1 + cost('\n')
  {
    var at := |text| - |OMISSION_SUFFIX|;
    if EndsWith(text, OMISSION_SUFFIX) {
      assert text[at] == text[at..][0];
      CostButForOne(cost, text, at, keep);
    } else {
      CostButForOne(cost, text, -1, keep);
    }
  }

  /** A clip that keeps something takes the cost of the cut part and adds that of the suffix. */
  lemma ClipChangesCost(payload: Json, chars: Json -> nat, cost: char -> nat, excess: nat)
    requires WellFormed(payload) && TextAdditive(chars, cost) && 0 < excess < |LongestSnippet(payload)|
    ensures RoundOf(Snippet, payload, excess).Some?
    ensures var text := LongestSnippet(payload);
            chars(RoundOf(Snippet, payload, excess).value.payload)
            == chars(payload) - Cost(cost, text[|text| - excess..]) + Cost(cost, OMISSION_SUFFIX)
  {
    hide WellFormed, TextAdditive, RoundOf, Candidate, LongestSnippet, Clipped, Cost, Get, Put, OMISSION_SUFFIX;
    var v := ClippedRound(payload, excess);
    CostOfClip(cost, LongestSnippet(payload), excess);
    CostOfExchange(payload, v.path, LongestSnippet(payload), Clipped(LongestSnippet(payload), excess), chars, cost);
  }

  lemma CostOfExchange(j: Json, path: Path, was: string, now: string, chars: Json -> nat, cost: char -> nat)
    requires TextAdditive(chars, cost) && Get(j, path) == Some(Text(was))
    ensures chars(Put(j, path, Text(now))) == chars(j) - Cost(cost, was) + Cost(cost, now)
  {
    hide Get, Put, Cost;
  }

  lemma CostOfClip(cost: char -> nat, text: string, excess: nat)
    requires 0 < excess < |text|
    ensures Cost(cost, Clipped(text, excess)) == Cost(cost, text) - Cost(cost, text[|text| - excess..]) + Cost(cost, OMISSION_SUFFIX)
  {
    var keep := |text| - excess;
    hide Cost;
    assert text == text[..keep] + text[keep..];
    CostAppend(cost, text[..keep], text[keep..]);
    CostAppend(cost, text[..keep], OMISSION_SUFFIX);
  }

  /** What a snippet round does: the longest snippet is clipped where it stands. */
  lemma ClippedRound(payload: Json, excess: nat) returns (v: Visit)
    requires WellFormed(payload) && LongestSnippet(payload) != ""
    ensures Candidate(Snippet, payload) == Some(v) && Get(payload, v.path) == Some(Text(LongestSnippet(payload)))
    ensures RoundOf(Snippet, payload, excess).Some?
    ensures RoundOf(Snippet, payload, excess).value.payload == Put(payload, v.path, Text(Clipped(LongestSnippet(payload), excess)))
  {
    CandidateIsVisited(Snippet, payload);
    v := Candidate(Snippet, payload).value;
    hide WellFormed, Candidate, Clipped;
  }

  /** A clip that keeps something makes the prompt fit exactly when the cut part costs so much
      more than its length as to pay for the suffix, but for the up to three characters by which
      the token count was rounded up. */
  lemma ClipFitsExactly(payload: Json, chars: Json -> nat, cost: char -> nat, budget: int)
    requires WellFormed(payload) && TextAdditive(chars, cost)
    requires 0 < (Tokens(chars)(payload) - budget) * 4 < |LongestSnippet(payload)|
    ensures var excess, text := (Tokens(chars)(payload) - budget) * 4, LongestSnippet(payload);
            var roundedUp := Tokens(chars)(payload) * 4 - chars(payload);
            && 0 <= roundedUp <= 3 && RoundOf(Snippet, payload, excess).Some?
            && (Tokens(chars)(RoundOf(Snippet, payload, excess).value.payload) <= budget
                <==> Cost(cost, text[|text| - excess..]) - excess + roundedUp >= Cost(cost, OMISSION_SUFFIX))
  {
    var excess, text := (Tokens(chars)(payload) - budget) * 4, LongestSnippet(payload);
    ClipChangesCost(payload, chars, cost, excess);
    FitsAfter(chars(payload), Cost(cost, text[|text| - excess..]), Cost(cost, OMISSION_SUFFIX), budget);
  }

  lemma FitsAfter(before: nat, removed: nat, added: nat, budget: int)
    ensures var tokens := (before + 3) / 4;
            && 0 <= tokens * 4 - before <= 3
            && ((before - removed + added + 3) / 4 <= budget
                <==> removed - (tokens - budget) * 4 + (tokens * 4 - before) >= added)
  {
  }

  /** 13 to 16 characters more than the budget has room for, or 17 where a newline costs two. */
  ghost predicate FourOver(payload: Json, chars: Json -> nat, cost: char -> nat, budget: int) {
    budget * 4 + 13 <= chars(payload) <= budget * 4 + 15 + cost('\n')
  }

  /** Where only the newline of a suffix may cost two, a clip that keeps something leaves the
      prompt four tokens over, whatever it was over before, or five if it does. */
  lemma ClipLeavesFourOver(payload: Json, chars: Json -> nat, cost: char -> nat, budget: int)
    requires WellFormed(payload) && TextAdditive(chars, cost) && NearlyUnit(cost)
    requires 0 < (Tokens(chars)(payload) - budget) * 4 < |LongestSnippet(payload)|
    requires IsPlainOrClipped(cost, LongestSnippet(payload))
    ensures var excess := (Tokens(chars)(payload) - budget) * 4;
            && RoundOf(Snippet, payload, excess).Some?
            && FourOver(RoundOf(Snippet, payload, excess).value.payload, chars, cost, budget)
            && budget + 4 <= Tokens(chars)(RoundOf(Snippet, payload, excess).value.payload) <= budget + 3 + cost('\n')
  {
    var excess, text := (Tokens(chars)(payload) - budget) * 4, LongestSnippet(payload);
    CostOfTail(cost, text, |text| - excess);
    CostOfSuffix(cost);
    hide WellFormed, TextAdditive, NearlyUnit, IsPlainOrClipped, RoundOf, LongestSnippet, Cost, FourOver, Tokens, OMISSION_SUFFIX;
    ClipChangesCost(payload, chars, cost, excess);
    AfterAClip(payload, RoundOf(Snippet, payload, excess).value.payload, chars, cost, budget, Cost(cost, text[|text| - excess..]));
  }

  lemma AfterAClip(before: Json, after: Json, chars: Json -> nat, cost: char -> nat, budget: int, removed: nat)
    requires var excess := (Tokens(chars)(before) - budget) * 4;
             excess <= removed <= excess - 1 + cost('\n')
    requires chars(after) == chars(before) - removed + |OMISSION_SUFFIX| - 1 + cost('\n')
    requires cost('\n') <= 2
    ensures FourOver(after, chars, cost, budget) && budget + 4 <= Tokens(chars)(after) <= budget + 3 + cost('\n')
  {
  }

  // ---------------------------------------------------------------------------
  // What holds of every snippet of a tree.
  // ---------------------------------------------------------------------------

  /** Every string under a snippet key has the property; `key` is the nearest key above. */
  ghost predicate EverySnippet(j: Json, key: Option<string>, p: string -> bool)
    decreases j
  {
    && (j.Text? && IsSnippetKey(key) ==> p(j.text))
    && forall i: nat :: i < Arity(j) ==> EverySnippet(Child(j, i), KeyBelow(key, PartAt(j, i)), p)
  }

  lemma {:induction false} EveryPart(j: Json, key: Option<string>, path: Path, p: string -> bool)
    requires EverySnippet(j, key, p) && Get(j, path).Some?
    ensures EverySnippet(Get(j, path).value, KeyAlong(key, path), p)
    decreases path
  {
    if path != [] {
      var i := Find(j, path[0], Arity(j)).value;
      EveryPart(Child(j, i), KeyBelow(key, path[0]), path[1..], p);
    }
  }

  lemma {:induction false} EveryAfterPut(j: Json, key: Option<string>, path: Path, v: Json, p: string -> bool)
    requires EverySnippet(j, key, p) && Get(j, path).Some? && EverySnippet(v, KeyAlong(key, path), p)
    ensures EverySnippet(Put(j, path, v), key, p)
    decreases path
  {
    if path != [] {
      var i := Find(j, path[0], Arity(j)).value;
      EveryAfterPut(Child(j, i), KeyBelow(key, path[0]), path[1..], v, p);
      var r := Put(j, path, v);
      forall k: nat | k < Arity(r) ensures EverySnippet(Child(r, k), KeyBelow(key, PartAt(r, k)), p) {
        assert PartAt(r, k) == PartAt(j, k);
      }
    }
  }

  lemma {:induction false} EveryWeaker(j: Json, key: Option<string>, p: string -> bool, q: string -> bool)
    requires EverySnippet(j, key, p) && forall text: string :: p(text) ==> q(text)
    ensures EverySnippet(j, key, q)
    decreases j
  {
    forall i: nat | i < Arity(j) ensures EverySnippet(Child(j, i), KeyBelow(key, PartAt(j, i)), q) {
      EveryWeaker(Child(j, i), KeyBelow(key, PartAt(j, i)), p, q);
    }
  }

  lemma EveryCut(items: seq<Json>, key: Option<string>, p: string -> bool)
    requires EverySnippet(List(items), key, p)
    ensures EverySnippet(List(Cut(items)), key, p)
  {
    var cut := List(Cut(items));
    forall i: nat | i < Arity(cut) ensures EverySnippet(Child(cut, i), KeyBelow(key, PartAt(cut, i)), p) {
      assert Child(cut, i) == Child(List(items), i) && PartAt(cut, i) == PartAt(List(items), i);
    }
  }

  /** A property of every string read under a snippet key. */
  ghost predicate ReadsHold(j: Json, key: Option<string>, p: string -> bool) {
    forall q: Path :: Get(j, q).Some? && Get(j, q).value.Text? && IsSnippetKey(KeyAlong(key, q)) ==> p(Get(j, q).value.text)
  }

  lemma {:induction false} ReadsAreEvery(j: Json, key: Option<string>, p: string -> bool)
    requires WellFormed(j) && ReadsHold(j, key, p)
    ensures EverySnippet(j, key, p)
    decreases j
  {
    assert Get(j, []) == Some(j);
    forall i: nat | i < Arity(j) ensures EverySnippet(Child(j, i), KeyBelow(key, PartAt(j, i)), p) {
      var part := PartAt(j, i);
      FindFinds(j, i);
      forall q: Path | Get(Child(j, i), q).Some? && Get(Child(j, i), q).value.Text? && IsSnippetKey(KeyAlong(KeyBelow(key, part), q))
        ensures p(Get(Child(j, i), q).value.text)
      {
        var longer := [part] + q;
        assert longer[1..] == q && Get(j, longer) == Get(Child(j, i), q);
      }
      ReadsAreEvery(Child(j, i), KeyBelow(key, part), p);
    }
  }

  predicate IsShort(text: string) {
    |text| <= MIN_SNIPPET_CHARS
  }

  /** No snippet is left to clip exactly when every one is short. */
  lemma NoneLeftMeansShort(payload: Json)
    requires WellFormed(payload)
    ensures Candidate(Snippet, payload).None? <==> EverySnippet(payload, None, IsShort)
  {
    if Candidate(Snippet, payload).None? {
      NoCandidateExactlyWhenNothingIsLong(Snippet, payload);
      forall q: Path | Get(payload, q).Some? && Get(payload, q).value.Text? && IsSnippetKey(KeyAlong(None, q))
        ensures IsShort(Get(payload, q).value.text)
      {
        KeyAlongIsParentKey(q);
        assert q != [];
        assert Length(Snippet, Visit(q, Get(payload, q).value)) <= MIN_SNIPPET_CHARS;
      }
      ReadsAreEvery(payload, None, IsShort);
    } else if EverySnippet(payload, None, IsShort) {
      CandidateIsVisited(Snippet, payload);
      var v := Candidate(Snippet, payload).value;
      EveryPart(payload, None, v.path, IsShort);
      KeyAlongIsParentKey(v.path);
    }
  }

  /** The longest snippet has the property, when there is one. */
  lemma CandidateHolds(payload: Json, p: string -> bool)
    requires WellFormed(payload) && EverySnippet(payload, None, p) && Candidate(Snippet, payload).Some?
    ensures Candidate(Snippet, payload).value.value == Text(LongestSnippet(payload))
    ensures p(LongestSnippet(payload)) && |LongestSnippet(payload)| > MIN_SNIPPET_CHARS
  {
    CandidateIsVisited(Snippet, payload);
    var v := Candidate(Snippet, payload).value;
    EveryPart(payload, None, v.path, p);
    KeyAlongIsParentKey(v.path);
  }

  /** A round keeps the property when what it puts in has it. */
  lemma SnippetRoundHolds(payload: Json, excess: nat, p: string -> bool)
    requires WellFormed(payload) && EverySnippet(payload, None, p) && RoundOf(Snippet, payload, excess).Some?
    requires p(Clipped(LongestSnippet(payload), excess))
    ensures EverySnippet(RoundOf(Snippet, payload, excess).value.payload, None, p)
  {
    CandidateHolds(payload, p);
    CandidateIsVisited(Snippet, payload);
    var v := Candidate(Snippet, payload).value;
    EveryAfterPut(payload, None, v.path, Replacement(v, excess), p);
  }

  lemma ListRoundHolds(payload: Json, excess: nat, p: string -> bool)
    requires WellFormed(payload) && EverySnippet(payload, None, p) && RoundOf(Items, payload, excess).Some?
    ensures EverySnippet(RoundOf(Items, payload, excess).value.payload, None, p)
  {
    CandidateIsVisited(Items, payload);
    var v := Candidate(Items, payload).value;
    EveryPart(payload, None, v.path, p);
    EveryCut(v.value.items, KeyAlong(None, v.path), p);
    EveryAfterPut(payload, None, v.path, Replacement(v, excess), p);
  }

  // ---------------------------------------------------------------------------
  // No clip fits the budget.
  // ---------------------------------------------------------------------------

  predicate LastIsClip(dropped: seq<Drop>) {
    dropped != [] && dropped[|dropped| - 1].kind == Snippet && dropped[|dropped| - 1].kept > 0
  }

  /** Before the first clip, after a clip, or once no snippet is left. */
  ghost predicate Trimming(p: Progress, chars: Json -> nat, cost: char -> nat, budget: int) {
    if LastIsClip(p.dropped)
    then FourOver(p.payload, chars, cost, budget) && EverySnippet(p.payload, None, PlainOrClipped(cost))
    else EverySnippet(p.payload, None, Plain(cost)) || EverySnippet(p.payload, None, IsShort)
  }

  lemma ClippedIsPlainOrClipped(cost: char -> nat, text: string, excess: nat)
    requires NearlyUnit(cost) && 0 < excess < |text|
    requires IsPlain(cost, text) || (IsPlainOrClipped(cost, text) && excess >= |OMISSION_SUFFIX|)
    ensures IsPlainOrClipped(cost, Clipped(text, excess))
  {
    var clipped, keep := Clipped(text, excess), |text| - excess;
    assert clipped[keep..] == OMISSION_SUFFIX;
    forall i | keep < i < |clipped| ensures cost(clipped[i]) == 1 {
      assert clipped[i] == OMISSION_SUFFIX[i - keep];
    }
  }

  /** A turn that has a snippet to trim: the record names its size after the round. */
  lemma SnippetNext(p: Progress, measure: Json -> int, budget: int) returns (trim: Trim)
    requires WellFormed(p.payload) && Candidate(Snippet, p.payload).Some? && measure(p.payload) > budget
    ensures RoundOf(Snippet, p.payload, (measure(p.payload) - budget) * 4) == Some(trim)
    ensures Next(p, SnippetsThenLists, measure, budget) == Progress(trim.payload, p.dropped + [trim.drop], false)
    ensures trim.drop.kind == Snippet
    ensures |LongestSnippet(p.payload)| > MIN_SNIPPET_CHARS
    ensures trim.drop.kept == |Clipped(LongestSnippet(p.payload), (measure(p.payload) - budget) * 4)|
  {
    trim := RoundOf(Snippet, p.payload, (measure(p.payload) - budget) * 4).value;
    CandidateIsVisited(Snippet, p.payload);
  }

  lemma ClipTurn(p: Progress, chars: Json -> nat, cost: char -> nat, budget: int)
    requires WellFormed(p.payload) && TextAdditive(chars, cost) && NearlyUnit(cost)
    requires Candidate(Snippet, p.payload).Some?
    requires EverySnippet(p.payload, None, PlainOrClipped(cost))
    requires var over := Tokens(chars)(p.payload) - budget;
             over > 0 && over * 4 < |LongestSnippet(p.payload)|
             && (over >= 4 || IsPlain(cost, LongestSnippet(p.payload)))
    ensures Trimming(Next(p, SnippetsThenLists, Tokens(chars), budget), chars, cost, budget)
  {
    hide WellFormed, TextAdditive, NearlyUnit, EverySnippet, RoundOf, Next, LongestSnippet, Candidate;
    var excess, text := (Tokens(chars)(p.payload) - budget) * 4, LongestSnippet(p.payload);
    var trim := SnippetNext(p, Tokens(chars), budget);
    CandidateHolds(p.payload, PlainOrClipped(cost));
    ClippedIsPlainOrClipped(cost, text, excess);
    SnippetRoundHolds(p.payload, excess, PlainOrClipped(cost));
    ClipLeavesFourOver(p.payload, chars, cost, budget);
  }

  lemma WholeTurn(p: Progress, chars: Json -> nat, cost: char -> nat, budget: int)
    requires WellFormed(p.payload) && Candidate(Snippet, p.payload).Some?
    requires EverySnippet(p.payload, None, Plain(cost))
    requires var over := Tokens(chars)(p.payload) - budget;
             over > 0 && over * 4 >= |LongestSnippet(p.payload)|
    ensures Trimming(Next(p, SnippetsThenLists, Tokens(chars), budget), chars, cost, budget)
  {
    var excess := (Tokens(chars)(p.payload) - budget) * 4;
    SnippetRoundHolds(p.payload, excess, Plain(cost));
    var trim := SnippetNext(p, Tokens(chars), budget);
    hide WellFormed, EverySnippet, RoundOf, Next, LongestSnippet, Tokens;
  }

  lemma SnippetTurn(p: Progress, chars: Json -> nat, cost: char -> nat, budget: int)
    requires WellFormed(p.payload) && TextAdditive(chars, cost) && NearlyUnit(cost)
    requires Trimming(p, chars, cost, budget) && Candidate(Snippet, p.payload).Some?
    requires Tokens(chars)(p.payload) > budget
    ensures Trimming(Next(p, SnippetsThenLists, Tokens(chars), budget), chars, cost, budget)
  {
    NoneLeftMeansShort(p.payload);
    if !LastIsClip(p.dropped) {
      EveryWeaker(p.payload, None, Plain(cost), PlainOrClipped(cost));
      CandidateHolds(p.payload, Plain(cost));
    }
    CandidateHolds(p.payload, PlainOrClipped(cost));
    var excess := (Tokens(chars)(p.payload) - budget) * 4;
    hide WellFormed, TextAdditive, EverySnippet, Next, LongestSnippet, Candidate;
    if excess < |LongestSnippet(p.payload)| {
      ClipTurn(p, chars, cost, budget);
    } else {
      WholeTurn(p, chars, cost, budget);
    }
  }

  /** A turn that has only lists to trim. */
  lemma ListNext(p: Progress, measure: Json -> int, budget: int) returns (trim: Trim)
    requires WellFormed(p.payload) && measure(p.payload) > budget
    requires Candidate(Snippet, p.payload).None? && Candidate(Items, p.payload).Some?
    ensures RoundOf(Items, p.payload, (measure(p.payload) - budget) * 4) == Some(trim)
    ensures Next(p, SnippetsThenLists, measure, budget) == Progress(trim.payload, p.dropped + [trim.drop], false)
    ensures trim.drop.kind == Items
  {
    hide WellFormed, Candidate, Replacement, Put, Get;
    trim := RoundOf(Items, p.payload, (measure(p.payload) - budget) * 4).value;
  }

  lemma ListTurn(p: Progress, chars: Json -> nat, cost: char -> nat, budget: int)
    requires WellFormed(p.payload) && Candidate(Snippet, p.payload).None? && Candidate(Items, p.payload).Some?
    requires Tokens(chars)(p.payload) > budget
    ensures Trimming(Next(p, SnippetsThenLists, Tokens(chars), budget), chars, cost, budget)
  {
    hide WellFormed, EverySnippet, RoundOf, Next, Candidate, Tokens, FourOver;
    NoneLeftMeansShort(p.payload);
    var trim := ListNext(p, Tokens(chars), budget);
    ListRoundHolds(p.payload, (Tokens(chars)(p.payload) - budget) * 4, IsShort);
  }

  lemma {:induction false} RunsKeepTrimming(payload: Json, chars: Json -> nat, cost: char -> nat, budget: int, n: nat)
    requires WellFormed(payload) && TextAdditive(chars, cost) && NearlyUnit(cost)
    requires EverySnippet(payload, None, Plain(cost))
    ensures Trimming(AfterRounds(payload, SnippetsThenLists, Tokens(chars), budget, n), chars, cost, budget)
  {
    if n == 0 {
      assert !LastIsClip([]);
    } else {
      hide WellFormed, TextAdditive, NearlyUnit, EverySnippet, Trimming, Next, AfterRounds, Tokens;
      RunsKeepTrimming(payload, chars, cost, budget, n - 1);
      var before := AfterRounds(payload, SnippetsThenLists, Tokens(chars), budget, n - 1);
      if before.stopped {
        StoppedForGood(payload, SnippetsThenLists, Tokens(chars), budget, n - 1, n);
      } else {
        OneMoreTurn(payload, SnippetsThenLists, Tokens(chars), budget, n - 1);
        TurnKeepsTrimming(before, chars, cost, budget);
      }
    }
  }

  lemma TurnKeepsTrimming(p: Progress, chars: Json -> nat, cost: char -> nat, budget: int)
    requires WellFormed(p.payload) && TextAdditive(chars, cost) && NearlyUnit(cost)
    requires Trimming(p, chars, cost, budget)
    ensures Trimming(Next(p, SnippetsThenLists, Tokens(chars), budget), chars, cost, budget)
  {
    if Tokens(chars)(p.payload) > budget && Candidate(Snippet, p.payload).Some? {
      SnippetTurn(p, chars, cost, budget);
    } else if Tokens(chars)(p.payload) > budget && Candidate(Items, p.payload).Some? {
      ListTurn(p, chars, cost, budget);
    } else {
      NothingToTrim(p, Tokens(chars), budget);
      hide Next;
    }
  }

  lemma NothingToTrim(p: Progress, measure: Json -> int, budget: int)
    requires WellFormed(p.payload)
    requires measure(p.payload) <= budget || (Candidate(Snippet, p.payload).None? && Candidate(Items, p.payload).None?)
    ensures Next(p, SnippetsThenLists, measure, budget) == p.(stopped := true)
  {
  }

  /** Trimming plain snippets first, the prompt is four tokens over the budget, or five, whenever
      the last thing done was to clip one: it is never a clip that makes the prompt fit. */
  lemma NoClipFitsTheBudget(payload: Json, chars: Json -> nat, cost: char -> nat, budget: int, n: nat)
    requires WellFormed(payload) && TextAdditive(chars, cost) && NearlyUnit(cost)
    requires EverySnippet(payload, None, Plain(cost))
    ensures var end := AfterRounds(payload, SnippetsThenLists, Tokens(chars), budget, n);
            LastIsClip(end.dropped) ==> budget + 4 <= Tokens(chars)(end.payload) <= budget + 3 + cost('\n')
  {
    RunsKeepTrimming(payload, chars, cost, budget, n);
  }
}
