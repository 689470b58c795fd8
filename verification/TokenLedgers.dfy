/** Token accounting per request: one entry, split by purpose and by model. Costs are real
    numbers; a bucket's cost is rounded to eight decimals at every call, the entry's is not. */
module TokenLedgers {
  import opened Options

  datatype Purpose = Routing | Synthesis | Analysis | Summarization

  datatype Usage = Usage(prompt: int, completion: int, total: int, cached: int, model: Option<string>)

  /** USD per million tokens. */
  datatype Rates = Rates(prompt: real, completion: real, cached: real)

  /** What the environment says at the time of a call. */
  datatype LlmSettings = LlmSettings(resolveModel: Purpose -> string, rates: string -> Rates)

  /** One recorded call, with the model and the price it was charged at. */
  datatype Charge = Charge(purpose: Purpose, model: string, usage: Usage, cost: real)

  datatype Counts = Counts(prompt: int, completion: int, cached: int, uncached: int, total: int, calls: int)

  datatype SpendBucket = SpendBucket(counts: Counts, cost: real, model: Option<string>)

  datatype Entry = Entry(counts: Counts, cost: real, byPurpose: map<Purpose, SpendBucket>, byModel: map<string, SpendBucket>)

  /** What `snapshot` and `close` return. */
  datatype Totals = Totals(counts: Counts, cost: real, byPurpose: map<Purpose, SpendBucket>, byModel: map<string, SpendBucket>)

  const NO_COUNTS := Counts(0, 0, 0, 0, 0, 0)
  const EMPTY_BUCKET := SpendBucket(NO_COUNTS, 0.0, None)
  const EMPTY_ENTRY := Entry(NO_COUNTS, 0.0, map[], map[])

  // ---------------------------------------------------------------------------
  // Prices and rounding.
  // ---------------------------------------------------------------------------

  function Uncached(u: Usage): int {
    if u.prompt > u.cached then u.prompt - u.cached else 0
  }

  function CostUsd(u: Usage, rates: Rates): real {
    var cached := if u.cached > 0 then u.cached else 0;
    var uncached := if u.prompt > cached then u.prompt - cached else 0;
    (uncached as real / 1000000.0) * rates.prompt
    + (cached as real / 1000000.0) * rates.cached
    + (u.completion as real / 1000000.0) * rates.completion
  }

  /** The nearest integer, ties to even. */
  function Nearest(x: real): int {
    var below := x.Floor;
    var part := x - below as real;
    if part < 0.5 || (part == 0.5 && below % 2 == 0) then below else below + 1
  }

  /** `round(x, 8)` */
  function Round8(x: real): real {
    Nearest(x * 100000000.0) as real / 100000000.0
  }

  const HALF_STEP := 0.000000005

  lemma RoundingIsClose(x: real)
    ensures -HALF_STEP <= Round8(x) - x <= HALF_STEP
  {
    var scaled := x * 100000000.0;
    assert -0.5 <= Nearest(scaled) as real - scaled <= 0.5;
  }

  lemma NearestIsMonotone(x: real, y: real)
    requires x <= y
    ensures Nearest(x) <= Nearest(y)
  {
    assert x.Floor <= y.Floor;
  }

  lemma RoundingIsMonotone(x: real, y: real)
    requires x <= y
    ensures Round8(x) <= Round8(y)
  {
    NearestIsMonotone(x * 100000000.0, y * 100000000.0);
  }

  // ---------------------------------------------------------------------------
  // Recording.
  // ---------------------------------------------------------------------------

  function Plus(a: Counts, b: Counts): Counts {
    Counts(a.prompt + b.prompt, a.completion + b.completion, a.cached + b.cached,
           a.uncached + b.uncached, a.total + b.total, a.calls + b.calls)
  }

  function CountsOf(u: Usage): Counts {
    Counts(u.prompt, u.completion, u.cached, Uncached(u), u.total, 1)
  }

  function ChargeOf(purpose: Purpose, usage: Usage, settings: LlmSettings): Charge {
    var model := if usage.model.Some? && usage.model.value != "" then usage.model.value else settings.resolveModel(purpose);
    Charge(purpose, model, usage, CostUsd(usage, settings.rates(model)))
  }

  /** `_add_to_bucket` */
  function AddToBucket(b: SpendBucket, c: Charge): SpendBucket {
    SpendBucket(Plus(b.counts, CountsOf(c.usage)), Round8(b.cost + c.cost), Some(c.model))
  }

  /** A `defaultdict` lookup. */
  function BucketAt<K>(buckets: map<K, SpendBucket>, k: K): SpendBucket {
    if k in buckets then buckets[k] else EMPTY_BUCKET
  }

  function AddCharge(e: Entry, c: Charge): Entry {
    Entry(
      Plus(e.counts, CountsOf(c.usage)),
      e.cost + c.cost,
      e.byPurpose[c.purpose := AddToBucket(BucketAt(e.byPurpose, c.purpose), c)],
      e.byModel[c.model := AddToBucket(BucketAt(e.byModel, c.model), c)])
  }

  function EntryTotals(e: Entry): Totals {
    Totals(e.counts, Round8(e.cost), e.byPurpose, e.byModel)
  }

  /** The entry a request has after these charges, none of them before it was opened. */
  function EntryOf(charges: seq<Charge>): Entry {
    if charges == [] then EMPTY_ENTRY
    else AddCharge(EntryOf(charges[..|charges| - 1]), charges[|charges| - 1])
  }

  /** The ledger of one process. */
  class TokenLedger {
    var entries: map<string, Entry>

    constructor ()
      ensures entries == map[]
    {
      entries := map[];
    }

    method Open(id: string)
      modifies this
      ensures entries == old(entries)[id := EMPTY_ENTRY]
    {
      entries := entries[id := EMPTY_ENTRY];
    }

    method Record(id: string, purpose: Purpose, usage: Usage, settings: LlmSettings)
      modifies this
      ensures entries == old(entries)[id := AddCharge(if id in old(entries) then old(entries)[id] else EMPTY_ENTRY,
                                                      ChargeOf(purpose, usage, settings))]
    {
      var entry := if id in entries then entries[id] else EMPTY_ENTRY;
      var model := if usage.model.Some? && usage.model.value != "" then usage.model.value else settings.resolveModel(purpose);
      var callCost := CostUsd(usage, settings.rates(model));
      var charge := Charge(purpose, model, usage, callCost);
      entry := entry.(counts := Plus(entry.counts, CountsOf(usage)), cost := entry.cost + callCost);
      entry := entry.(byPurpose := entry.byPurpose[purpose := AddToBucket(BucketAt(entry.byPurpose, purpose), charge)]);
      entry := entry.(byModel := entry.byModel[model := AddToBucket(BucketAt(entry.byModel, model), charge)]);
      entries := entries[id := entry];
    }

    method Snapshot(id: string) returns (totals: Totals)
      ensures totals == EntryTotals(if id in entries then entries[id] else EMPTY_ENTRY)
    {
      if id !in entries {
        assert Round8(0.0) == 0.0;
        return Totals(NO_COUNTS, 0.0, map[], map[]);
      }
      totals := EntryTotals(entries[id]);
    }

    method Close(id: string) returns (totals: Totals)
      modifies this
      ensures totals == EntryTotals(if id in old(entries) then old(entries)[id] else EMPTY_ENTRY)
      ensures entries == old(entries) - {id}
    {
      var entry := if id in entries then entries[id] else EMPTY_ENTRY;
      entries := entries - {id};
      totals := EntryTotals(entry);
    }
  }

  // ---------------------------------------------------------------------------
  // Sums over buckets.
  // ---------------------------------------------------------------------------

  /** A bucket's counts and cost as one vector. */
  datatype Tally = Tally(counts: Counts, cost: real)

  function Joined(a: Tally, b: Tally): Tally {
    Tally(Plus(a.counts, b.counts), a.cost + b.cost)
  }

  function TallyOf(b: SpendBucket): Tally {
    Tally(b.counts, b.cost)
  }

  ghost function SumOver<K(!new)>(buckets: map<K, SpendBucket>): Tally
    decreases |buckets|
  {
    if |buckets| == 0 then Tally(NO_COUNTS, 0.0)
    else
      var k :| k in buckets;
      Joined(TallyOf(buckets[k]), SumOver(buckets - {k}))
  }

  lemma JoinedSwaps(a: Tally, b: Tally, c: Tally)
    ensures Joined(a, Joined(b, c)) == Joined(b, Joined(a, c))
  {
  }

  lemma {:induction false} SumSplits<K(!new)>(buckets: map<K, SpendBucket>, k: K)
    requires k in buckets
    ensures SumOver(buckets) == Joined(TallyOf(buckets[k]), SumOver(buckets - {k}))
    decreases |buckets|
  {
    var first :| first in buckets && SumOver(buckets) == Joined(TallyOf(buckets[first]), SumOver(buckets - {first}));
    if first == k {
      assert buckets - {first} == buckets - {k};
    } else {
      SumSplits(buckets - {first}, k);
      SumSplits(buckets - {k}, first);
      assert buckets - {first} - {k} == buckets - {k} - {first};
      hide SumOver, Joined, TallyOf;
      JoinedSwaps(TallyOf(buckets[first]), TallyOf(buckets[k]), SumOver(buckets - {first} - {k}));
    }
  }

  /** What a charge adds to a sum in which its bucket's cost moves from `was` to `next`. */
  function Moved(sum: Tally, c: Charge, was: real, next: real): Tally {
    Tally(Plus(sum.counts, CountsOf(c.usage)), sum.cost - was + next)
  }

  lemma JoinedMoves(b: SpendBucket, rest: Tally, c: Charge)
    ensures Joined(TallyOf(AddToBucket(b, c)), rest)
            == Moved(Joined(TallyOf(b), rest), c, b.cost, AddToBucket(b, c).cost)
  {
  }

  lemma NothingJoined(rest: Tally)
    ensures Joined(TallyOf(EMPTY_BUCKET), rest) == rest
  {
  }

  lemma WithoutUpdated<K>(buckets: map<K, SpendBucket>, k: K, b: SpendBucket)
    ensures buckets[k := b] - {k} == buckets - {k}
    ensures k !in buckets ==> buckets - {k} == buckets
  {
  }

  lemma SumWithBucket<K(!new)>(buckets: map<K, SpendBucket>, k: K, b: SpendBucket)
    ensures SumOver(buckets[k := b]) == Joined(TallyOf(b), SumOver(buckets - {k}))
  {
    SumSplits(buckets[k := b], k);
    WithoutUpdated(buckets, k, b);
    hide *;
  }

  lemma SumWithoutBucket<K(!new)>(buckets: map<K, SpendBucket>, k: K)
    ensures SumOver(buckets) == Joined(TallyOf(BucketAt(buckets, k)), SumOver(buckets - {k}))
  {
    if k in buckets {
      SumSplits(buckets, k);
      hide SumOver, Joined, TallyOf;
    } else {
      WithoutUpdated(buckets, k, EMPTY_BUCKET);
      NothingJoined(SumOver(buckets));
      hide SumOver, Joined, TallyOf;
    }
  }

  lemma SumAfterCharge<K(!new)>(buckets: map<K, SpendBucket>, k: K, c: Charge)
    ensures var was := BucketAt(buckets, k);
            SumOver(buckets[k := AddToBucket(was, c)])
            == Moved(SumOver(buckets), c, was.cost, AddToBucket(was, c).cost)
  {
    var was := BucketAt(buckets, k);
    SumWithBucket(buckets, k, AddToBucket(was, c));
    SumWithoutBucket(buckets, k);
    JoinedMoves(was, SumOver(buckets - {k}), c);
    hide *;
  }

  /** A breakdown adds up: its counts to the entry's exactly, its costs to within half a unit of
      the eighth decimal per call. */
  ghost predicate AddsUp<K(!new)>(buckets: map<K, SpendBucket>, e: Entry) {
    && SumOver(buckets).counts == e.counts
    && -(e.counts.calls as real * HALF_STEP) <= SumOver(buckets).cost - e.cost <= e.counts.calls as real * HALF_STEP
  }

  lemma ChargeKeepsSums<K(!new)>(buckets: map<K, SpendBucket>, k: K, e: Entry, c: Charge)
    requires AddsUp(buckets, e)
    ensures AddsUp(buckets[k := AddToBucket(BucketAt(buckets, k), c)], AddCharge(e, c))
  {
    SumAfterCharge(buckets, k, c);
    RoundingIsClose(BucketAt(buckets, k).cost + c.cost);
    assert (e.counts.calls + 1) as real * HALF_STEP == e.counts.calls as real * HALF_STEP + HALF_STEP;
  }

  /** Conservation: both breakdowns of a request add up to it, whatever was charged. */
  lemma {:induction false} BreakdownsAddUp(charges: seq<Charge>)
    ensures AddsUp(EntryOf(charges).byPurpose, EntryOf(charges))
    ensures AddsUp(EntryOf(charges).byModel, EntryOf(charges))
    ensures EntryOf(charges).counts.calls == |charges|
  {
    if charges != [] {
      var before, c := charges[..|charges| - 1], charges[|charges| - 1];
      BreakdownsAddUp(before);
      var e := EntryOf(before);
      ChargeKeepsSums(e.byPurpose, c.purpose, e, c);
      ChargeKeepsSums(e.byModel, c.model, e, c);
    }
  }

  /** What a reader of a snapshot sees: the costs of a breakdown add up to the reported cost to
      within half a unit of the eighth decimal per call, and one more for the report. */
  lemma SnapshotAddsUp(charges: seq<Charge>)
    ensures var totals := EntryTotals(EntryOf(charges));
            var bound := (|charges| + 1) as real * HALF_STEP;
            && SumOver(totals.byPurpose).counts == SumOver(totals.byModel).counts == totals.counts
            && -bound <= SumOver(totals.byPurpose).cost - totals.cost <= bound
            && -bound <= SumOver(totals.byModel).cost - totals.cost <= bound
  {
    BreakdownsAddUp(charges);
    RoundingIsClose(EntryOf(charges).cost);
    hide EntryOf, SumOver, Round8;
    assert (|charges| + 1) as real * HALF_STEP == |charges| as real * HALF_STEP + HALF_STEP;
  }

  // ---------------------------------------------------------------------------
  // What a bucket holds.
  // ---------------------------------------------------------------------------

  function Sum(charges: seq<Charge>): Tally {
    if charges == [] then Tally(NO_COUNTS, 0.0)
    else
      var c := charges[|charges| - 1];
      Joined(Sum(charges[..|charges| - 1]), Tally(CountsOf(c.usage), c.cost))
  }

  /** The entry itself is the sum of its charges, its cost unrounded. */
  lemma {:induction false} EntryIsTheSumOfItsCharges(charges: seq<Charge>)
    ensures EntryOf(charges).counts == Sum(charges).counts && EntryOf(charges).cost == Sum(charges).cost
  {
    if charges != [] {
      EntryIsTheSumOfItsCharges(charges[..|charges| - 1]);
    }
  }

  function ChargesFor(charges: seq<Charge>, p: Purpose): seq<Charge> {
    if charges == [] then []
    else
      var before, c := ChargesFor(charges[..|charges| - 1], p), charges[|charges| - 1];
      if c.purpose == p then before + [c] else before
  }

  function ChargesOn(charges: seq<Charge>, model: string): seq<Charge> {
    if charges == [] then []
    else
      var before, c := ChargesOn(charges[..|charges| - 1], model), charges[|charges| - 1];
      if c.model == model then before + [c] else before
  }

  lemma SumAppends(charges: seq<Charge>, c: Charge)
    ensures Sum(charges + [c]) == Joined(Sum(charges), Tally(CountsOf(c.usage), c.cost))
  {
    assert (charges + [c])[..|charges|] == charges;
  }

  /** A bucket exists exactly when some charge went to it, and counts exactly those charges. */
  ghost predicate Holds<K>(buckets: map<K, SpendBucket>, k: K, mine: seq<Charge>) {
    (k in buckets <==> mine != []) && BucketAt(buckets, k).counts == Sum(mine).counts
  }

  lemma HoldsStep<K>(buckets: map<K, SpendBucket>, k: K, mine: seq<Charge>, c: Charge, to: K)
    requires Holds(buckets, k, mine)
    ensures Holds(buckets[to := AddToBucket(BucketAt(buckets, to), c)], k, if to == k then mine + [c] else mine)
  {
    SumAppends(mine, c);
  }

  lemma {:induction false} PurposeBucketsHoldTheirCharges(charges: seq<Charge>, p: Purpose)
    ensures Holds(EntryOf(charges).byPurpose, p, ChargesFor(charges, p))
  {
    if charges != [] {
      var before, c := charges[..|charges| - 1], charges[|charges| - 1];
      PurposeBucketsHoldTheirCharges(before, p);
      HoldsStep(EntryOf(before).byPurpose, p, ChargesFor(before, p), c, c.purpose);
      hide Holds, AddToBucket, BucketAt;
    }
  }

  lemma {:induction false} ModelBucketsHoldTheirCharges(charges: seq<Charge>, m: string)
    ensures Holds(EntryOf(charges).byModel, m, ChargesOn(charges, m))
  {
    if charges != [] {
      var before, c := charges[..|charges| - 1], charges[|charges| - 1];
      ModelBucketsHoldTheirCharges(before, m);
      HoldsStep(EntryOf(before).byModel, m, ChargesOn(before, m), c, c.model);
      hide Holds, AddToBucket, BucketAt;
    }
  }

  // ---------------------------------------------------------------------------
  // Runs.
  // ---------------------------------------------------------------------------

  datatype Event = Opened(id: string) | Charged(id: string, charge: Charge) | Closed(id: string)

  function After(entries: map<string, Entry>, event: Event): map<string, Entry> {
    match event
    case Opened(id) => entries[id := EMPTY_ENTRY]
    case Charged(id, c) => entries[id := AddCharge(if id in entries then entries[id] else EMPTY_ENTRY, c)]
    case Closed(id) => entries - {id}
  }

  function AfterAll(events: seq<Event>): map<string, Entry> {
    if events == [] then map[] else After(AfterAll(events[..|events| - 1]), events[|events| - 1])
  }

  /** The charges of a request since it was last opened or closed. */
  function Current(events: seq<Event>, id: string): seq<Charge> {
    if events == [] then []
    else
      var before, e := Current(events[..|events| - 1], id), events[|events| - 1];
      if e.id != id then before
      else match e
        case Opened(_) => []
        case Closed(_) => []
        case Charged(_, c) => before + [c]
  }

  /** However requests interleave, each one's entry is that of its own charges. */
  lemma {:induction false} RequestsAreIndependent(events: seq<Event>, id: string)
    ensures (if id in AfterAll(events) then AfterAll(events)[id] else EMPTY_ENTRY) == EntryOf(Current(events, id))
  {
    if events != [] {
      var n := |events| - 1;
      RequestsAreIndependent(events[..n], id);
      var before := Current(events[..n], id);
      if events[n].id == id && events[n].Charged? {
        assert (before + [events[n].charge])[..|before|] == before;
      }
    }
  }

  // ---------------------------------------------------------------------------
  // Spend only grows.
  // ---------------------------------------------------------------------------

  predicate NonNegative(c: Charge) {
    c.usage.prompt >= 0 && c.usage.completion >= 0 && c.usage.total >= 0 && c.usage.cached >= 0 && c.cost >= 0.0
  }

  /** Non-negative usage at non-negative rates has a non-negative cost. */
  lemma CostIsNonNegative(u: Usage, rates: Rates)
    requires u.completion >= 0 && rates.prompt >= 0.0 && rates.completion >= 0.0 && rates.cached >= 0.0
    ensures CostUsd(u, rates) >= 0.0
  {
    var cached := if u.cached > 0 then u.cached else 0;
    var uncached := if u.prompt > cached then u.prompt - cached else 0;
    ProductIsNonNegative(uncached as real / 1000000.0, rates.prompt);
    ProductIsNonNegative(cached as real / 1000000.0, rates.cached);
    ProductIsNonNegative(u.completion as real / 1000000.0, rates.completion);
  }

  /** Every prompt token is billed once: caching saves exactly the difference of the two rates. */
  lemma CachingSavesTheRateDifference(u: Usage, rates: Rates)
    requires 0 <= u.cached <= u.prompt
    ensures CostUsd(u, rates)
            == (u.prompt as real / 1000000.0) * rates.prompt + (u.completion as real / 1000000.0) * rates.completion
               - (u.cached as real / 1000000.0) * (rates.prompt - rates.cached)
  {
    var p, c := u.prompt as real / 1000000.0, u.cached as real / 1000000.0;
    assert (u.prompt - u.cached) as real / 1000000.0 == p - c;
    assert (p - c) * rates.prompt == p * rates.prompt - c * rates.prompt;
    assert c * (rates.prompt - rates.cached) == c * rates.prompt - c * rates.cached;
  }

  lemma ProductIsNonNegative(a: real, b: real)
    requires a >= 0.0 && b >= 0.0
    ensures a * b >= 0.0
  {
  }

  /** The totals a budget reads never go down while a request stays open. */
  lemma {:induction false} TotalsNeverShrink(charges: seq<Charge>, more: seq<Charge>)
    requires forall c :: c in more ==> NonNegative(c)
    ensures EntryTotals(EntryOf(charges)).counts.total <= EntryTotals(EntryOf(charges + more)).counts.total
    ensures EntryTotals(EntryOf(charges)).cost <= EntryTotals(EntryOf(charges + more)).cost
  {
    if more == [] {
      assert charges + more == charges;
    } else {
      var n := |more| - 1;
      TotalsNeverShrink(charges, more[..n]);
      assert (charges + more)[..|charges + more| - 1] == charges + more[..n];
      assert NonNegative(more[n]);
      RoundingIsMonotone(EntryOf(charges + more[..n]).cost, EntryOf(charges + more).cost);
    }
  }
}
