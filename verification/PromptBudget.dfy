/** Trimming the evidence tree until the synthesis prompt fits its token budget. */
module PromptBudget {
  import opened Options
  import opened JsonTrees

  const SNIPPET_BODY_KEYS: set<string> := {"text", "snippet", "snippet_a", "snippet_b", "code", "source", "body"}
  const MIN_SNIPPET_CHARS := 80
  const MIN_LIST_LEN := 2
  const MAX_TRIM_ROUNDS := 64
  const OMISSION_SUFFIX := "\n... (truncated)"

  datatype Order = SnippetsThenLists | ListsThenSnippets

  datatype Kind = Snippet | Items

  datatype Drop = Drop(path: Path, kind: Kind, original: nat, kept: nat)

  datatype Truncation = Truncation(originalTokens: int, finalTokens: int, budget: int, dropped: seq<Drop>)

  // ---------------------------------------------------------------------------
  // Choosing what to trim.
  // ---------------------------------------------------------------------------

  /** The nearest dict key on a path, list positions passed over. */
  function ParentKey(path: Path): Option<string> {
    if path == [] then None
    else if path[|path| - 1].Key? then Some(path[|path| - 1].name)
    else ParentKey(path[..|path| - 1])
  }

  predicate IsSnippetKey(key: Option<string>) {
    key.Some? && key.value in SNIPPET_BODY_KEYS
  }

  /** The length a visit competes with in each kind of round. */
  function Length(kind: Kind, v: Visit): nat {
    match kind
    case Snippet => if IsSnippetKey(ParentKey(v.path)) && v.value.Text? then |v.value.text| else 0
    case Items => if v.value.List? then |v.value.items| else 0
  }

  function Floor(kind: Kind): nat {
    if kind == Snippet then MIN_SNIPPET_CHARS else MIN_LIST_LEN - 1
  }

  /** The first of the longest visits above the floor, among the first `n`. */
  function Longest(kind: Kind, visits: seq<Visit>, n: nat): Option<Visit>
    requires n <= |visits|
  {
    if n == 0 then None
    else
      var best := Longest(kind, visits, n - 1);
      if Length(kind, visits[n - 1]) > (if best.Some? then Length(kind, best.value) else Floor(kind))
      then Some(visits[n - 1]) else best
  }

  function Candidate(kind: Kind, payload: Json): Option<Visit> {
    Longest(kind, Walk(payload, []), |Walk(payload, [])|)
  }

  predicate AllWithin(kind: Kind, visits: seq<Visit>, n: nat, bound: nat)
    requires n <= |visits|
  {
    forall k :: 0 <= k < n ==> Length(kind, visits[k]) <= bound
  }

  /** The `i`-th visit is the first of the longest among the first `n`. */
  predicate IsFirstMaximum(kind: Kind, visits: seq<Visit>, n: nat, i: nat)
    requires n <= |visits|
  {
    i < n && AllWithin(kind, visits, n, Length(kind, visits[i]))
    && forall k :: 0 <= k < i ==> Length(kind, visits[k]) < Length(kind, visits[i])
  }

  lemma OneMoreWithin(kind: Kind, visits: seq<Visit>, n: nat, bound: nat)
    requires n < |visits| && AllWithin(kind, visits, n, bound)
    ensures Length(kind, visits[n]) <= bound ==> AllWithin(kind, visits, n + 1, bound)
    ensures Length(kind, visits[n]) > bound ==> IsFirstMaximum(kind, visits, n + 1, n)
  {
    hide Length;
  }

  lemma StillFirstMaximum(kind: Kind, visits: seq<Visit>, n: nat, i: nat)
    requires n < |visits| && IsFirstMaximum(kind, visits, n, i) && Length(kind, visits[n]) <= Length(kind, visits[i])
    ensures IsFirstMaximum(kind, visits, n + 1, i)
  {
    OneMoreWithin(kind, visits, n, Length(kind, visits[i]));
    hide Length, AllWithin;
  }

  lemma {:induction false} LongestIsTheFirstMaximum(kind: Kind, visits: seq<Visit>, n: nat)
    requires n <= |visits|
    ensures var best := Longest(kind, visits, n);
            if best.None? then AllWithin(kind, visits, n, Floor(kind))
            else Length(kind, best.value) > Floor(kind)
                 && exists i :: 0 <= i < n && visits[i] == best.value && IsFirstMaximum(kind, visits, n, i)
  {
    hide Longest, Length, Floor, AllWithin, IsFirstMaximum;
    LongestStep(kind, visits, n);
    if n > 0 {
      LongestIsTheFirstMaximum(kind, visits, n - 1);
      var before := Longest(kind, visits, n - 1);
      if before.None? {
        OneMoreWithin(kind, visits, n - 1, Floor(kind));
      } else {
        var i :| 0 <= i < n - 1 && visits[i] == before.value && IsFirstMaximum(kind, visits, n - 1, i);
        MaximumIsWithin(kind, visits, n - 1, i);
        OneMoreWithin(kind, visits, n - 1, Length(kind, visits[i]));
        if Length(kind, visits[n - 1]) <= Length(kind, visits[i]) {
          StillFirstMaximum(kind, visits, n - 1, i);
        }
      }
    }
  }

  lemma LongestStep(kind: Kind, visits: seq<Visit>, n: nat)
    requires n <= |visits|
    ensures n == 0 ==> Longest(kind, visits, n) == None && AllWithin(kind, visits, n, Floor(kind))
    ensures n > 0 ==>
              var before := Longest(kind, visits, n - 1);
              Longest(kind, visits, n)
              == if Length(kind, visits[n - 1]) > (if before.Some? then Length(kind, before.value) else Floor(kind))
                 then Some(visits[n - 1]) else before
  {
    hide Length, Floor;
  }

  lemma MaximumIsWithin(kind: Kind, visits: seq<Visit>, n: nat, i: nat)
    requires n <= |visits| && IsFirstMaximum(kind, visits, n, i)
    ensures i < n && AllWithin(kind, visits, n, Length(kind, visits[i]))
  {
    hide Length, AllWithin;
  }

  lemma CandidateIsVisited(kind: Kind, payload: Json)
    requires WellFormed(payload)
    ensures var best := Candidate(kind, payload);
            best.Some? ==> best.value in Walk(payload, [])
                           && Length(kind, best.value) > Floor(kind)
                           && best.value.path != [] && Get(payload, best.value.path) == Some(best.value.value)
  {
    var visits := Walk(payload, []);
    LongestIsTheFirstMaximum(kind, visits, |visits|);
    if Candidate(kind, payload).Some? {
      VisitFromRoot(payload, Candidate(kind, payload).value);
    }
  }

  /** Nothing is left to trim exactly when no list has two items and no snippet over the floor. */
  lemma NoCandidateExactlyWhenNothingIsLong(kind: Kind, payload: Json)
    requires WellFormed(payload)
    ensures Candidate(kind, payload).None?
            <==> forall q: Path :: q != [] && Get(payload, q).Some? ==> Length(kind, Visit(q, Get(payload, q).value)) <= Floor(kind)
  {
    var visits := Walk(payload, []);
    LongestIsTheFirstMaximum(kind, visits, |visits|);
    if Candidate(kind, payload).None? {
      forall q: Path | q != [] && Get(payload, q).Some?
        ensures Length(kind, Visit(q, Get(payload, q).value)) <= Floor(kind)
      {
        ReadsAreVisited(payload, q, []);
        assert [] + q == q;
      }
    } else {
      CandidateIsVisited(kind, payload);
      var v := Candidate(kind, payload).value;
      assert v == Visit(v.path, Get(payload, v.path).value);
    }
  }

  method FindLongest(kind: Kind, payload: Json) returns (longest: Option<Visit>)
    ensures longest == Candidate(kind, payload)
  {
    var visits := Walk(payload, []);
    longest := None;
    var longestLen := Floor(kind);
    for n := 0 to |visits|
      invariant longest == Longest(kind, visits, n)
      invariant longestLen == if longest.Some? then Length(kind, longest.value) else Floor(kind)
    {
      if Length(kind, visits[n]) > longestLen {
        longest := Some(visits[n]);
        longestLen := Length(kind, visits[n]);
      }
    }
  }

  // ---------------------------------------------------------------------------
  // One round.
  // ---------------------------------------------------------------------------

  /** How much of a string of this length stays when `excess` characters are too many. */
  function Keep(length: nat, excess: nat): nat {
    var keep := if length > excess then length - excess else 0;
    if keep >= length then length / 2 else keep
  }

  function Clipped(text: string, excess: nat): string {
    var keep := Keep(|text|, excess);
    if keep > 0 then text[..keep] + OMISSION_SUFFIX else ""
  }

  function Cut(items: seq<Json>): seq<Json> {
    if |items| < 2 then items else items[..|items| / 2]
  }

  /** What a round puts in place of its candidate. */
  function Replacement(v: Visit, excess: nat): Json {
    match v.value
    case Text(text) => Text(Clipped(text, excess))
    case List(items) => List(Cut(items))
    case other => other
  }

  function DropOf(kind: Kind, v: Visit, excess: nat): Drop {
    Drop(v.path, kind, Length(kind, v),
         match Replacement(v, excess)
         case Text(text) => |text|
         case List(items) => |items|
         case _ => 0)
  }

  datatype Trim = Trim(payload: Json, drop: Drop)

  /** A round of one kind, or nothing when it has no candidate. */
  function RoundOf(kind: Kind, payload: Json, excess: nat): Option<Trim>
    requires WellFormed(payload)
  {
    var best := Candidate(kind, payload);
    CandidateIsVisited(kind, payload);
    if best.None? then None
    else Some(Trim(Put(payload, best.value.path, Replacement(best.value, excess)), DropOf(kind, best.value, excess)))
  }

  function Round(order: Order, payload: Json, excess: nat): Option<Trim>
    requires WellFormed(payload)
  {
    var first := if order == ListsThenSnippets then Items else Snippet;
    var second := if order == ListsThenSnippets then Snippet else Items;
    if RoundOf(first, payload, excess).Some? then RoundOf(first, payload, excess) else RoundOf(second, payload, excess)
  }

  lemma {:induction false} PartsAreWellFormed(j: Json, path: Path)
    requires WellFormed(j) && Get(j, path).Some?
    ensures WellFormed(Get(j, path).value)
    decreases path
  {
    if path != [] {
      PartsAreWellFormed(Child(j, Find(j, path[0], Arity(j)).value), path[1..]);
    }
  }

  lemma CutIsWellFormed(items: seq<Json>)
    requires WellFormed(List(items))
    ensures WellFormed(List(Cut(items)))
  {
    var cut := List(Cut(items));
    forall i: nat | i < Arity(cut) ensures WellFormed(Child(cut, i)) {
      assert Child(cut, i) == Child(List(items), i);
    }
  }

  lemma RoundKeepsKeys(kind: Kind, payload: Json, excess: nat)
    requires WellFormed(payload) && RoundOf(kind, payload, excess).Some?
    ensures WellFormed(RoundOf(kind, payload, excess).value.payload)
  {
    CandidateIsVisited(kind, payload);
    var v := Candidate(kind, payload).value;
    PartsAreWellFormed(payload, v.path);
    if v.value.List? {
      CutIsWellFormed(v.value.items);
    }
    PutKeepsKeys(payload, v.path, Replacement(v, excess));
  }

  // ---------------------------------------------------------------------------
  // All rounds.
  // ---------------------------------------------------------------------------

  datatype Progress = Progress(payload: Json, dropped: seq<Drop>, stopped: bool)

  /** One turn of the loop: stop when the prompt fits or nothing can be trimmed. */
  function Next(p: Progress, order: Order, measure: Json -> int, budget: int): (next: Progress)
    requires WellFormed(p.payload)
    ensures WellFormed(next.payload)
  {
    if measure(p.payload) <= budget then p.(stopped := true)
    else
      var trim := Round(order, p.payload, (measure(p.payload) - budget) * 4);
      if trim.None? then p.(stopped := true)
      else
        RoundKeepsKeysInEitherOrder(order, p.payload, (measure(p.payload) - budget) * 4);
        Progress(trim.value.payload, p.dropped + [trim.value.drop], false)
  }

  /** The working copy after `n` turns of the loop. */
  function AfterRounds(payload: Json, order: Order, measure: Json -> int, budget: int, n: nat): (p: Progress)
    requires WellFormed(payload)
    ensures WellFormed(p.payload)
  {
    if n == 0 then Progress(payload, [], false)
    else
      var before := AfterRounds(payload, order, measure, budget, n - 1);
      if before.stopped then before else Next(before, order, measure, budget)
  }

  lemma RoundKeepsKeysInEitherOrder(order: Order, payload: Json, excess: nat)
    requires WellFormed(payload) && Round(order, payload, excess).Some?
    ensures WellFormed(Round(order, payload, excess).value.payload)
  {
    forall kind | RoundOf(kind, payload, excess).Some? ensures WellFormed(RoundOf(kind, payload, excess).value.payload) {
      RoundKeepsKeys(kind, payload, excess);
    }
  }

  /** The copy being trimmed and the record of what was dropped. */
  class Working {
    var payload: Json
    var dropped: seq<Drop>

    constructor (original: Json)
      ensures payload == original && dropped == []
    {
      payload, dropped := original, [];
    }

    /** `_truncate_longest_snippet` and `_trim_longest_list` */
    method TrimLongest(kind: Kind, excess: nat) returns (trimmed: bool)
      requires WellFormed(payload)
      modifies this
      ensures var trim := RoundOf(kind, old(payload), excess);
              trimmed == trim.Some?
              && payload == (if trimmed then trim.value.payload else old(payload))
              && dropped == old(dropped) + (if trimmed then [trim.value.drop] else [])
    {
      var longest := FindLongest(kind, payload);
      if longest.None? {
        return false;
      }
      CandidateIsVisited(kind, payload);
      var path, value := longest.value.path, longest.value.value;
      var kept: Json, length: nat;
      if value.Text? {
        var keep := if |value.text| > excess then |value.text| - excess else 0;
        if keep >= |value.text| {
          keep := |value.text| / 2;
        }
        var clipped := if keep > 0 then value.text[..keep] + OMISSION_SUFFIX else "";
        kept, length := Text(clipped), |clipped|;
      } else {
        var keepLen := |value.items| / 2;
        kept, length := List(value.items[..keepLen]), keepLen;
      }
      payload := Put(payload, path, kept);
      dropped := dropped + [Drop(path, kind, Length(kind, longest.value), length)];
      return true;
    }

    /** One turn of the loop: the first kind that has a candidate is trimmed. */
    method TrimOnce(order: Order, excess: nat) returns (trimmed: bool)
      requires WellFormed(payload)
      modifies this
      ensures var trim := Round(order, old(payload), excess);
              trimmed == trim.Some?
              && payload == (if trimmed then trim.value.payload else old(payload))
              && dropped == old(dropped) + (if trimmed then [trim.value.drop] else [])
    {
      hide WellFormed, RoundOf;
      if order == ListsThenSnippets {
        trimmed := TrimLongest(Items, excess);
        if !trimmed {
          trimmed := TrimLongest(Snippet, excess);
        }
      } else {
        trimmed := TrimLongest(Snippet, excess);
        if !trimmed {
          trimmed := TrimLongest(Items, excess);
        }
      }
    }

    /** The body of the loop. */
    method Turn(order: Order, measure: Json -> int, budget: int) returns (stopped: bool)
      requires WellFormed(payload)
      modifies this
      ensures Progress(payload, dropped, stopped) == Next(Progress(old(payload), old(dropped), false), order, measure, budget)
    {
      hide WellFormed, Round;
      var tokens := measure(payload);
      if tokens <= budget {
        return true;
      }
      var trimmed := TrimOnce(order, (tokens - budget) * 4);
      return !trimmed;
    }
  }

  lemma OneMoreTurn(payload: Json, order: Order, measure: Json -> int, budget: int, n: nat)
    requires WellFormed(payload) && !AfterRounds(payload, order, measure, budget, n).stopped
    ensures AfterRounds(payload, order, measure, budget, n + 1)
            == Next(AfterRounds(payload, order, measure, budget, n), order, measure, budget)
  {
  }

  /** Trims a copy until the measured prompt fits, nothing is left to trim, or 64 rounds have run. */
  method ApplyPromptBudget(agentPayload: Json, budget: int, order: Order, measure: Json -> int)
    returns (payload: Json, truncation: Option<Truncation>)
    requires WellFormed(agentPayload)
    ensures if budget <= 0 || measure(agentPayload) <= budget then payload == agentPayload && truncation.None?
            else
              var end := AfterRounds(agentPayload, order, measure, budget, MAX_TRIM_ROUNDS);
              payload == end.payload
              && truncation == if end.dropped == [] then None
                               else Some(Truncation(measure(agentPayload), measure(payload), budget, end.dropped))
  {
    var originalTokens := measure(agentPayload);
    if budget <= 0 || originalTokens <= budget {
      return agentPayload, None;
    }
    var work := new Working(agentPayload);
    var round := 0;
    var stopped := false;
    assert Progress(agentPayload, [], false) == AfterRounds(agentPayload, order, measure, budget, 0);
    hide WellFormed, Next, AfterRounds;
    while round < MAX_TRIM_ROUNDS && !stopped
      invariant round <= MAX_TRIM_ROUNDS
      invariant Progress(work.payload, work.dropped, stopped) == AfterRounds(agentPayload, order, measure, budget, round)
      decreases MAX_TRIM_ROUNDS - round
    {
      OneMoreTurn(agentPayload, order, measure, budget, round);
      assert work.payload == AfterRounds(agentPayload, order, measure, budget, round).payload;
      stopped := work.Turn(order, measure, budget);
      round := round + 1;
    }
    StoppedForGood(agentPayload, order, measure, budget, round, MAX_TRIM_ROUNDS);
    payload := work.payload;
    truncation := if work.dropped == [] then None
                  else Some(Truncation(originalTokens, measure(payload), budget, work.dropped));
  }

  lemma {:induction false} StoppedForGood(payload: Json, order: Order, measure: Json -> int, budget: int, n: nat, m: nat)
    requires WellFormed(payload) && n <= m && (AfterRounds(payload, order, measure, budget, n).stopped || n == m)
    ensures AfterRounds(payload, order, measure, budget, m) == AfterRounds(payload, order, measure, budget, n)
  {
    hide WellFormed, Next;
    if n < m {
      StoppedForGood(payload, order, measure, budget, n, m - 1);
    }
  }

  lemma WhyATurnStops(p: Progress, order: Order, measure: Json -> int, budget: int)
    requires WellFormed(p.payload) && !p.stopped
    ensures var next := Next(p, order, measure, budget);
            if next.stopped
            then measure(next.payload) <= budget || (Candidate(Snippet, next.payload).None? && Candidate(Items, next.payload).None?)
            else |next.dropped| == |p.dropped| + 1
  {
    hide WellFormed, Candidate;
  }

  /** Why the loop ends: the prompt fits, every round dropped something, or nothing trimmable is
      left. */
  lemma {:induction false} WhyItStops(payload: Json, order: Order, measure: Json -> int, budget: int, n: nat)
    requires WellFormed(payload)
    ensures var end := AfterRounds(payload, order, measure, budget, n);
            if end.stopped
            then measure(end.payload) <= budget || (Candidate(Snippet, end.payload).None? && Candidate(Items, end.payload).None?)
            else |end.dropped| == n
  {
    hide WellFormed, Candidate, Next;
    if n > 0 {
      WhyItStops(payload, order, measure, budget, n - 1);
      var before := AfterRounds(payload, order, measure, budget, n - 1);
      if !before.stopped {
        WhyATurnStops(before, order, measure, budget);
      }
    }
  }

  // ---------------------------------------------------------------------------
  // What trimming may do.
  // ---------------------------------------------------------------------------

  predicate EndsWith(text: string, suffix: string) {
    |suffix| <= |text| && text[|text| - |suffix|..] == suffix
  }

  predicate TextTrimmed(a: string, b: string, key: Option<string>) {
    b == a || (IsSnippetKey(key) && |a| > MIN_SNIPPET_CHARS && (b == "" || EndsWith(b, OMISSION_SUFFIX)))
  }

  predicate CountTrimmed(a: nat, b: nat) {
    b == a || (a >= MIN_LIST_LEN && 1 <= b <= a)
  }

  function KeyBelow(key: Option<string>, part: Part): Option<string> {
    if part.Key? then Some(part.name) else key
  }

  /** `b` is `a` with lists cut to prefixes, never to nothing, and long strings under snippet keys
      clipped or emptied; every other scalar and every key is as it was. */
  ghost predicate Trimmed(a: Json, b: Json, key: Option<string>)
    decreases a
  {
    match a
    case Scalar(_) => b == a
    case Text(text) => b.Text? && TextTrimmed(text, b.text, key)
    case List(items) =>
      b.List? && CountTrimmed(|items|, |b.items|)
      && forall i: nat :: i < Arity(b) ==> Trimmed(Child(a, i), Child(b, i), key)
    case Dict(fields) =>
      b.Dict? && |b.fields| == |fields|
      && forall i: nat :: i < Arity(b) ==> PartAt(b, i) == PartAt(a, i)
                                           && Trimmed(Child(a, i), Child(b, i), KeyBelow(key, PartAt(a, i)))
  }

  lemma {:induction false} NothingTrimmed(a: Json, key: Option<string>)
    ensures Trimmed(a, a, key)
    decreases a
  {
    forall i: nat | i < Arity(a) ensures Trimmed(Child(a, i), Child(a, i), KeyBelow(key, PartAt(a, i))) {
      NothingTrimmed(Child(a, i), KeyBelow(key, PartAt(a, i)));
    }
  }

  lemma {:induction false} TrimmedTwice(a: Json, b: Json, c: Json, key: Option<string>)
    requires Trimmed(a, b, key) && Trimmed(b, c, key)
    ensures Trimmed(a, c, key)
    decreases a
  {
    forall i: nat | i < Arity(c) ensures Trimmed(Child(a, i), Child(c, i), KeyBelow(key, PartAt(a, i))) {
      TrimmedTwice(Child(a, i), Child(b, i), Child(c, i), KeyBelow(key, PartAt(a, i)));
    }
  }

  function KeyAlong(key: Option<string>, path: Path): Option<string>
    decreases path
  {
    if path == [] then key else KeyAlong(KeyBelow(key, path[0]), path[1..])
  }

  lemma {:induction false} KeyAlongAppend(key: Option<string>, path: Path, part: Part)
    ensures KeyAlong(key, path + [part]) == KeyBelow(KeyAlong(key, path), part)
    decreases path
  {
    if path == [] {
      assert ([] + [part])[1..] == [];
    } else {
      assert (path + [part])[1..] == path[1..] + [part];
      KeyAlongAppend(KeyBelow(key, path[0]), path[1..], part);
    }
  }

  lemma {:induction false} KeyAlongIsParentKey(path: Path)
    ensures KeyAlong(None, path) == ParentKey(path)
  {
    if path != [] {
      KeyAlongIsParentKey(path[..|path| - 1]);
      KeyAlongAppend(None, path[..|path| - 1], path[|path| - 1]);
      assert path == path[..|path| - 1] + [path[|path| - 1]];
    }
  }

  /** Trimming one part of a tree trims the tree. */
  lemma {:induction false} PutTrims(j: Json, path: Path, v: Json, key: Option<string>)
    requires Get(j, path).Some? && Trimmed(Get(j, path).value, v, KeyAlong(key, path))
    ensures Trimmed(j, Put(j, path, v), key)
    decreases path
  {
    if path != [] {
      var i := Find(j, path[0], Arity(j)).value;
      var r := Put(j, path, v);
      PutTrims(Child(j, i), path[1..], v, KeyBelow(key, path[0]));
      forall k: nat | k < Arity(j) ensures Trimmed(Child(j, k), Child(r, k), KeyBelow(key, PartAt(j, k))) {
        if k != i {
          NothingTrimmed(Child(j, k), KeyBelow(key, PartAt(j, k)));
        }
      }
    }
  }

  lemma ReplacementTrims(kind: Kind, v: Visit, excess: nat)
    requires Length(kind, v) > Floor(kind)
    ensures Trimmed(v.value, Replacement(v, excess), ParentKey(v.path))
  {
    if v.value.List? {
      var cut := Replacement(v, excess);
      forall i: nat | i < Arity(cut) ensures Trimmed(Child(v.value, i), Child(cut, i), ParentKey(v.path)) {
        NothingTrimmed(Child(v.value, i), ParentKey(v.path));
      }
    }
  }

  lemma RoundTrims(kind: Kind, payload: Json, excess: nat)
    requires WellFormed(payload) && RoundOf(kind, payload, excess).Some?
    ensures Trimmed(payload, RoundOf(kind, payload, excess).value.payload, None)
  {
    CandidateIsVisited(kind, payload);
    var v := Candidate(kind, payload).value;
    ReplacementTrims(kind, v, excess);
    KeyAlongIsParentKey(v.path);
    PutTrims(payload, v.path, Replacement(v, excess), None);
  }

  /** Whatever the rounds do, the result is trimmed from the input. */
  lemma {:induction false} ResultIsTrimmedFromInput(payload: Json, order: Order, measure: Json -> int, budget: int, n: nat)
    requires WellFormed(payload)
    ensures Trimmed(payload, AfterRounds(payload, order, measure, budget, n).payload, None)
  {
    hide Trimmed, WellFormed, Next;
    if n == 0 {
      NothingTrimmed(payload, None);
    } else {
      ResultIsTrimmedFromInput(payload, order, measure, budget, n - 1);
      var before := AfterRounds(payload, order, measure, budget, n - 1);
      NextTrims(before, order, measure, budget);
      TrimmedTwice(payload, before.payload, Next(before, order, measure, budget).payload, None);
    }
  }

  lemma NextTrims(p: Progress, order: Order, measure: Json -> int, budget: int)
    requires WellFormed(p.payload)
    ensures Trimmed(p.payload, Next(p, order, measure, budget).payload, None)
  {
    hide WellFormed, Trimmed, Round;
    NothingTrimmed(p.payload, None);
    if measure(p.payload) > budget {
      var excess := (measure(p.payload) - budget) * 4;
      if Round(order, p.payload, excess).Some? {
        RoundTrimsInEitherOrder(order, p.payload, excess);
      }
    }
  }

  lemma RoundTrimsInEitherOrder(order: Order, payload: Json, excess: nat)
    requires WellFormed(payload) && Round(order, payload, excess).Some?
    ensures Trimmed(payload, Round(order, payload, excess).value.payload, None)
  {
    forall kind | RoundOf(kind, payload, excess).Some?
      ensures Trimmed(payload, RoundOf(kind, payload, excess).value.payload, None)
    {
      RoundTrims(kind, payload, excess);
    }
  }

  // ---------------------------------------------------------------------------
  // Progress, and where there is none.
  // ---------------------------------------------------------------------------

  /** Every list round makes the tree strictly smaller. */
  lemma ListRoundShrinks(payload: Json, excess: nat)
    requires WellFormed(payload) && RoundOf(Items, payload, excess).Some?
    ensures Weight(RoundOf(Items, payload, excess).value.payload) < Weight(payload)
  {
    CandidateIsVisited(Items, payload);
    var v := Candidate(Items, payload).value;
    CutListWeighsLess(v.value.items, |v.value.items| / 2);
    WeightAfterPut(payload, v.path, Replacement(v, excess));
  }

  function SizeOf(j: Json): nat {
    match j
    case Text(text) => |text|
    case List(items) => |items|
    case _ => 0
  }

  /** The record of a round is accurate: it gives the sizes of what stood at the path before and
      stands there after. A list keeps half its items; a snippet loses the excess and gains the
      suffix, or goes. */
  lemma DropSaysWhatHappened(kind: Kind, payload: Json, excess: nat)
    requires WellFormed(payload) && RoundOf(kind, payload, excess).Some? && excess > 0
    ensures var trim := RoundOf(kind, payload, excess).value;
            var was, now := Get(payload, trim.drop.path), Get(trim.payload, trim.drop.path);
            && was.Some? && now.Some? && trim.drop.kind == kind
            && trim.drop.original == SizeOf(was.value) && trim.drop.kept == SizeOf(now.value)
            && trim.drop.kept == match kind
                                 case Items => trim.drop.original / 2
                                 case Snippet =>
                                   if excess >= trim.drop.original then 0 else trim.drop.original - excess + |OMISSION_SUFFIX|
  {
    CandidateIsVisited(kind, payload);
    var v := Candidate(kind, payload).value;
    GetAfterPut(payload, v.path, Replacement(v, excess));
    if kind == Snippet {
      ClippedLength(v.value.text, excess);
    }
  }

  function LongestSnippet(payload: Json): string {
    var best := Candidate(Snippet, payload);
    if best.Some? && best.value.value.Text? then best.value.value.text else ""
  }

  lemma ClippedLength(text: string, excess: nat)
    requires |text| > MIN_SNIPPET_CHARS && excess > 0
    ensures Keep(|text|, excess) == if excess >= |text| then 0 else |text| - excess
    ensures |Clipped(text, excess)| == if excess >= |text| then 0 else |text| - excess + |OMISSION_SUFFIX|
  {
  }

  /** A snippet round makes the tree smaller exactly when more than 16 characters are too many: the
      suffix it adds is 16 characters long, and a string that goes whole is longer than that. */
  lemma SnippetRoundShrinksExactly(payload: Json, excess: nat)
    requires WellFormed(payload) && RoundOf(Snippet, payload, excess).Some? && excess > 0
    ensures Weight(RoundOf(Snippet, payload, excess).value.payload) < Weight(payload)
            <==> excess > 16
  {
    CandidateIsVisited(Snippet, payload);
    var v := Candidate(Snippet, payload).value;
    ClippedLength(v.value.text, excess);
    WeightAfterPut(payload, v.path, Replacement(v, excess));
  }

  /** A clip gives back the same string exactly when 16 characters are too many and the string
      already ends with the suffix. */
  lemma ClipIsNoChangeExactly(text: string, excess: nat)
    requires |text| > MIN_SNIPPET_CHARS && excess > 0
    ensures Clipped(text, excess) == text <==> excess == 16 && EndsWith(text, OMISSION_SUFFIX)
  {
    ClippedLength(text, excess);
    if excess == 16 {
      assert text == text[..|text| - 16] + text[|text| - 16..];
    }
  }

  lemma SnippetRoundIsNoChangeExactly(payload: Json, excess: nat)
    requires WellFormed(payload) && RoundOf(Snippet, payload, excess).Some? && excess > 0
    ensures RoundOf(Snippet, payload, excess).value.payload == payload
            <==> excess == 16 && EndsWith(LongestSnippet(payload), OMISSION_SUFFIX)
  {
    CandidateIsVisited(Snippet, payload);
    var v := Candidate(Snippet, payload).value;
    ClipIsNoChangeExactly(v.value.text, excess);
    GetAfterPut(payload, v.path, Replacement(v, excess));
    PutWhatIsThere(payload, v.path);
  }

  /** Trimming snippets first, a prompt four tokens over budget whose longest snippet was clipped
      before is never trimmed again, however much could still be cut elsewhere. */
  lemma {:induction false} FourTokensOverIsStuck(payload: Json, measure: Json -> int, budget: int, n: nat)
    requires WellFormed(payload) && EndsWith(LongestSnippet(payload), OMISSION_SUFFIX)
    requires measure(payload) == budget + 4
    ensures var end := AfterRounds(payload, SnippetsThenLists, measure, budget, n);
            end.payload == payload && !end.stopped
  {
    hide WellFormed, Next, LongestSnippet;
    if n > 0 {
      FourTokensOverIsStuck(payload, measure, budget, n - 1);
      FourTokensOverTurn(AfterRounds(payload, SnippetsThenLists, measure, budget, n - 1), measure, budget);
    }
  }

  lemma FourTokensOverTurn(p: Progress, measure: Json -> int, budget: int)
    requires WellFormed(p.payload) && EndsWith(LongestSnippet(p.payload), OMISSION_SUFFIX)
    requires measure(p.payload) == budget + 4
    ensures var next := Next(p, SnippetsThenLists, measure, budget);
            next.payload == p.payload && !next.stopped
  {
    SnippetFirstIsNoChange(p.payload);
    hide WellFormed, Round, LongestSnippet;
  }

  lemma SnippetFirstIsNoChange(payload: Json)
    requires WellFormed(payload) && EndsWith(LongestSnippet(payload), OMISSION_SUFFIX)
    ensures var trim := Round(SnippetsThenLists, payload, 16);
            trim.Some? && trim.value.payload == payload
  {
    SnippetRoundIsNoChangeExactly(payload, 16);
  }

  const STUCK_TEXT := seq(80, _ => 'x') + OMISSION_SUFFIX
  const TWO_ROWS := List([Scalar("1"), Scalar("2")])
  const STUCK_PAYLOAD := Dict([Field("text", Text(STUCK_TEXT)), Field("rows", TWO_ROWS)])

  lemma StuckVisits() returns (visits: seq<Visit>)
    ensures visits == Walk(STUCK_PAYLOAD, []) && |visits| >= 2
    ensures visits[0] == Visit([Key("text")], Text(STUCK_TEXT)) && visits[1] == Visit([Key("rows")], TWO_ROWS)
    ensures forall k :: 2 <= k < |visits| ==> visits[k].value.Scalar?
  {
    visits := Walk(STUCK_PAYLOAD, []);
    var first, second := Visit([Key("text")], Text(STUCK_TEXT)), Visit([Key("rows")], TWO_ROWS);
    assert [] + [PartAt(STUCK_PAYLOAD, 0)] == first.path && [] + [PartAt(STUCK_PAYLOAD, 1)] == second.path;
    assert WalkTo(STUCK_PAYLOAD, 1, []) == [first] by {
      assert WalkTo(Text(STUCK_TEXT), 0, first.path) == [] && WalkTo(STUCK_PAYLOAD, 0, []) == [];
    }
    ScalarsBelow(TWO_ROWS, 2, second.path);
    assert visits == [first] + [second] + Walk(TWO_ROWS, second.path);
    assert forall k :: 2 <= k < |visits| ==> visits[k] == Walk(TWO_ROWS, second.path)[k - 2];
  }

  lemma StuckIsWellFormed()
    ensures WellFormed(STUCK_PAYLOAD)
  {
    assert forall i: nat :: i < 2 ==> WellFormed(Child(TWO_ROWS, i));
    assert WellFormed(Child(STUCK_PAYLOAD, 0)) && WellFormed(Child(STUCK_PAYLOAD, 1));
  }

  /** Such a payload exists, with a list that could still be cut. */
  lemma StuckWithAListToCut()
    ensures WellFormed(STUCK_PAYLOAD) && EndsWith(LongestSnippet(STUCK_PAYLOAD), OMISSION_SUFFIX)
    ensures Candidate(Items, STUCK_PAYLOAD).Some?
  {
    StuckIsWellFormed();
    var visits := StuckVisits();
    var first, second := visits[0], visits[1];
    assert Length(Snippet, first) > Floor(Snippet) && Length(Items, first) == 0;
    assert Length(Snippet, second) == 0 && Length(Items, second) == 2;
    hide Walk, WellFormed;
    FirstTwo(Snippet, visits);
    FirstTwo(Items, visits);
    ShortVisitsDoNotMatter(Snippet, visits, 2, |visits|);
    ShortVisitsDoNotMatter(Items, visits, 2, |visits|);
  }

  lemma FirstTwo(kind: Kind, visits: seq<Visit>)
    requires |visits| >= 2 && Length(kind, visits[0]) != Length(kind, visits[1])
    requires Length(kind, visits[0]) == 0 || Length(kind, visits[1]) == 0
    requires Length(kind, visits[0]) > Floor(kind) || Length(kind, visits[1]) > Floor(kind)
    ensures Longest(kind, visits, 2) == Some(if Length(kind, visits[0]) > 0 then visits[0] else visits[1])
  {
    hide Length;
    assert Longest(kind, visits, 0) == None;
    assert Longest(kind, visits, 1) == if Length(kind, visits[0]) > Floor(kind) then Some(visits[0]) else None;
  }

  lemma {:induction false} ScalarsBelow(rows: Json, n: nat, path: Path)
    requires n <= Arity(rows) && forall i: nat :: i < Arity(rows) ==> Child(rows, i).Scalar?
    ensures forall v :: v in WalkTo(rows, n, path) ==> v.value.Scalar?
  {
    if n > 0 {
      ScalarsBelow(rows, n - 1, path);
    }
  }

  lemma {:induction false} ShortVisitsDoNotMatter(kind: Kind, visits: seq<Visit>, m: nat, n: nat)
    requires m <= n <= |visits| && forall k :: m <= k < n ==> Length(kind, visits[k]) == 0
    ensures Longest(kind, visits, n) == Longest(kind, visits, m)
  {
    if m < n {
      ShortVisitsDoNotMatter(kind, visits, m, n - 1);
    }
  }
}
