/** The budget of one request: a deadline, ceilings on tokens and cost, and the time kept back
    for synthesis. Times are real seconds. */
module RequestBudgets {
  import opened Options
  import opened TokenLedgers

  datatype Ceiling = Deadline | Tokens | Cost

  datatype Limits = Limits(deadline: real, tokens: Option<int>, cost: Option<real>,
                           margin: real, maxSynthesis: real, baseReserve: real)

  const REFERENCE_PROMPT_TOKENS := 4000
  const SECONDS_PER_TOKEN := 0.002
  const UNLIMITED_DEADLINE := 86400.0

  function Max(a: real, b: real): (m: real)
    ensures m >= a && m >= b && (m == a || m == b)
  {
    if a >= b then a else b
  }

  function Min(a: real, b: real): (m: real)
    ensures m <= a && m <= b && (m == a || m == b)
  {
    if a <= b then a else b
  }

  /** The reserve a prompt of this size calls for: the floor, and time for each token beyond a
      typical prompt. */
  function ScaledReserve(promptTokens: int, base: real): (r: real)
    ensures r >= base && r >= 0.0
    ensures promptTokens <= REFERENCE_PROMPT_TOKENS ==> r == Max(0.0, base)
  {
    var extra := if promptTokens > REFERENCE_PROMPT_TOKENS then promptTokens - REFERENCE_PROMPT_TOKENS else 0;
    Max(0.0, base) + extra as real * SECONDS_PER_TOKEN
  }

  function Remaining(limits: Limits, now: real): real {
    Max(0.0, limits.deadline - now)
  }

  function SpecialistRemaining(limits: Limits, reserve: real, now: real): real {
    Max(0.0, Remaining(limits, now) - reserve)
  }

  /** Seconds synthesis may take when asked for at `now`; 0 means it is skipped. */
  function SynthesisTimeout(limits: Limits, reserve: real, now: real, promptTokens: Option<int>): real {
    var usable := Remaining(limits, now) - limits.margin;
    if usable <= 0.0 then 0.0
    else
      var cap :=
        if promptTokens.Some? then Max(limits.maxSynthesis, ScaledReserve(promptTokens.value, limits.maxSynthesis))
        else if reserve > limits.baseReserve then Max(limits.maxSynthesis, reserve)
        else limits.maxSynthesis;
      Min(cap, usable)
  }

  /** Synthesis, if it runs at all, ends the safety margin before the deadline; it is skipped
      exactly when that leaves no time; and it gets all that is left unless the cap is less. */
  lemma SynthesisEndsBeforeTheMargin(limits: Limits, reserve: real, now: real, promptTokens: Option<int>)
    requires limits.margin >= 0.0 && limits.maxSynthesis > 0.0
    ensures var t := SynthesisTimeout(limits, reserve, now, promptTokens);
            && (t == 0.0 <==> limits.deadline - now <= limits.margin)
            && (t > 0.0 ==> now + t <= limits.deadline - limits.margin)
            && (t > 0.0 && now + t < limits.deadline - limits.margin ==> t >= limits.maxSynthesis)
            && (promptTokens == None && reserve <= limits.baseReserve ==> t <= limits.maxSynthesis)
            && (promptTokens.Some? && promptTokens.value <= REFERENCE_PROMPT_TOKENS ==> t <= limits.maxSynthesis)
  {
  }

  /** A ceiling that spend and time have reached. */
  predicate Tripped(limits: Limits, spent: Option<Totals>, now: real, c: Ceiling) {
    match c
    case Deadline => Remaining(limits, now) <= 0.0
    case Tokens => spent.Some? && limits.tokens.Some? && spent.value.counts.total >= limits.tokens.value
    case Cost => spent.Some? && limits.cost.Some? && spent.value.cost >= limits.cost.value
  }

  /** The first ceiling found when looking afresh. */
  function Found(limits: Limits, spent: Option<Totals>, now: real): Option<Ceiling> {
    if Tripped(limits, spent, now, Deadline) then Some(Deadline)
    else if Tripped(limits, spent, now, Tokens) then Some(Tokens)
    else if Tripped(limits, spent, now, Cost) then Some(Cost)
    else None
  }

  function RaisedReserve(limits: Limits, reserve: real, promptTokens: int): real {
    if limits.baseReserve <= 0.0 then reserve
    else Max(limits.baseReserve, ScaledReserve(promptTokens, limits.baseReserve))
  }

  class RequestBudget {
    const limits: Limits
    var reserve: real
    var exhausted: Option<Ceiling>

    constructor (limits: Limits)
      ensures this.limits == limits && reserve == limits.baseReserve && exhausted == None
    {
      this.limits, reserve, exhausted := limits, limits.baseReserve, None;
    }

    method ApplyPromptReserve(promptTokens: int) returns (inForce: real)
      modifies this`reserve
      ensures reserve == inForce == RaisedReserve(limits, old(reserve), promptTokens)
      ensures limits.baseReserve > 0.0 ==> inForce >= limits.baseReserve
    {
      if limits.baseReserve <= 0.0 {
        return reserve;
      }
      var scaled := ScaledReserve(promptTokens, limits.baseReserve);
      reserve := Max(limits.baseReserve, scaled);
      inForce := reserve;
    }

    /** `spent` is the ledger's snapshot, absent without a ledger. */
    method Check(spent: Option<Totals>, now: real) returns (ceiling: Option<Ceiling>)
      modifies this`exhausted
      ensures exhausted == ceiling == if old(exhausted).Some? then old(exhausted) else Found(limits, spent, now)
    {
      if exhausted.Some? {
        return exhausted;
      }
      if Remaining(limits, now) <= 0.0 {
        exhausted := Some(Deadline);
        return exhausted;
      }
      if spent.None? {
        return None;
      }
      var total, cost := spent.value.counts.total, spent.value.cost;
      if limits.tokens.Some? && total >= limits.tokens.value {
        exhausted := Some(Tokens);
        return exhausted;
      }
      if limits.cost.Some? && cost >= limits.cost.value {
        exhausted := Some(Cost);
        return exhausted;
      }
      return None;
    }

    method AllowNewCall(spent: Option<Totals>, now: real) returns (allowed: bool)
      modifies this`exhausted
      ensures exhausted == if old(exhausted).Some? then old(exhausted) else Found(limits, spent, now)
      ensures allowed <==> exhausted.None? && SpecialistRemaining(limits, reserve, now) > 0.0
    {
      var ceiling := Check(spent, now);
      if ceiling.Some? {
        return false;
      }
      allowed := SpecialistRemaining(limits, reserve, now) > 0.0;
    }
  }

  // ---------------------------------------------------------------------------
  // The sticky flag.
  // ---------------------------------------------------------------------------

  /** A request between checks: its charges so far, the clock, and the flag. */
  datatype Watch = Watch(charges: seq<Charge>, now: real, exhausted: Option<Ceiling>)

  datatype Moment = Spend(charge: Charge) | Wait(seconds: real) | CheckNow

  function Spent(w: Watch): Option<Totals> {
    Some(EntryTotals(EntryOf(w.charges)))
  }

  function Then(limits: Limits, w: Watch, m: Moment): Watch {
    match m
    case Spend(c) => w.(charges := w.charges + [c])
    case Wait(seconds) => w.(now := w.now + seconds)
    case CheckNow => w.(exhausted := if w.exhausted.Some? then w.exhausted else Found(limits, Spent(w), w.now))
  }

  function Watched(limits: Limits, moments: seq<Moment>, start: real): Watch {
    if moments == [] then Watch([], start, None)
    else Then(limits, Watched(limits, moments[..|moments| - 1], start), moments[|moments| - 1])
  }

  /** Usage is non-negative and the clock does not go back. */
  predicate Forward(moments: seq<Moment>) {
    forall m :: m in moments ==> (m.Spend? ==> NonNegative(m.charge)) && (m.Wait? ==> m.seconds >= 0.0)
  }

  lemma TrippedStaysTripped(limits: Limits, w: Watch, m: Moment, c: Ceiling)
    requires Tripped(limits, Spent(w), w.now, c) && Forward([m])
    ensures Tripped(limits, Spent(Then(limits, w, m)), Then(limits, w, m).now, c)
  {
    assert m in [m];
    if m.Spend? {
      TotalsNeverShrink(w.charges, [m.charge]);
    }
  }

  /** While a request stays open, a raised flag names a ceiling that a fresh look still finds
      tripped. */
  lemma {:induction false} FlagIsNeverStale(limits: Limits, moments: seq<Moment>, start: real)
    requires Forward(moments)
    ensures var w := Watched(limits, moments, start);
            w.exhausted.Some? ==> Tripped(limits, Spent(w), w.now, w.exhausted.value)
  {
    if moments != [] {
      var before, m := moments[..|moments| - 1], moments[|moments| - 1];
      FlagIsNeverStale(limits, before, start);
      var w := Watched(limits, before, start);
      assert m in moments;
      if w.exhausted.Some? {
        TrippedStaysTripped(limits, w, m, w.exhausted.value);
      }
    }
  }

  /** So a check answers "none" exactly when no ceiling is tripped at that moment. */
  lemma CheckIsAsGoodAsRecomputing(limits: Limits, moments: seq<Moment>, start: real)
    requires Forward(moments)
    ensures var w := Watched(limits, moments + [CheckNow], start);
            w.exhausted.None? <==> forall c :: !Tripped(limits, Spent(w), w.now, c)
  {
    var all := moments + [CheckNow];
    assert all[..|all| - 1] == moments;
    FlagIsNeverStale(limits, all, start);
    var w := Watched(limits, all, start);
    if w.exhausted.None? {
      forall c ensures !Tripped(limits, Spent(w), w.now, c) {
        match c {
          case Deadline =>
          case Tokens =>
          case Cost =>
        }
      }
    }
  }

  /** Reopening the request clears what was spent and leaves the flag, which a later check keeps.
      It then names a ceiling that is tripped exactly when there is none, the deadline is over, or
      the ceiling on tokens or cost allows nothing. */
  lemma ReopeningLeavesTheFlag(limits: Limits, w: Watch)
    ensures var reopened := w.(charges := []);
            && (w.exhausted.Some? ==> Then(limits, reopened, CheckNow).exhausted == w.exhausted)
            && ((w.exhausted.Some? ==> Tripped(limits, Spent(reopened), reopened.now, w.exhausted.value))
                <==> match w.exhausted
                     case None => true
                     case Some(Deadline) => limits.deadline <= w.now
                     case Some(Tokens) => limits.tokens.Some? && limits.tokens.value <= 0
                     case Some(Cost) => limits.cost.Some? && limits.cost.value <= 0.0)
  {
    assert EntryTotals(EntryOf([])).cost == 0.0;
  }

  // ---------------------------------------------------------------------------
  // The plan phase.
  // ---------------------------------------------------------------------------

  /** The plan phase under way: the clock, the reserve in force, the sticky flag, and for every
      call that was issued the latest time it may come back. */
  datatype Plan = Plan(now: real, reserve: real, exhausted: Option<Ceiling>, due: seq<real>)

  /** Anything may be asked for at any time: a specialist call (refused when the budget says so),
      the clock moving on while a call is out, a round ending with a prompt of some size. */
  datatype Step =
    | Call(timeout: real, spent: Option<Totals>)
    | Advance(to: real, awaited: nat)
    | EndRound(promptTokens: int, spent: Option<Totals>)

  function Checked(limits: Limits, p: Plan, spent: Option<Totals>): Plan {
    p.(exhausted := if p.exhausted.Some? then p.exhausted else Found(limits, spent, p.now))
  }

  /** `_call`: clipped to what specialists have left, or skipped. A call that does not come back
      in time is abandoned `grace` seconds later. */
  function Called(limits: Limits, grace: real, p: Plan, timeout: real, spent: Option<Totals>): Plan {
    var q := Checked(limits, p, spent);
    var remaining := SpecialistRemaining(limits, q.reserve, q.now);
    if q.exhausted.Some? || remaining <= 0.0 || Min(timeout, remaining) <= 0.0 then q
    else q.(due := q.due + [q.now + Min(timeout, remaining) + grace])
  }

  ghost predicate Next(limits: Limits, grace: real, p: Plan, step: Step, q: Plan) {
    match step
    case Call(timeout, spent) => q == Called(limits, grace, p, timeout, spent)
    case Advance(to, awaited) => awaited < |p.due| && p.now <= to <= p.due[awaited] && q == p.(now := to)
    case EndRound(tokens, spent) => q == Checked(limits, p, spent).(reserve := RaisedReserve(limits, p.reserve, tokens))
  }

  ghost predicate Runs(limits: Limits, grace: real, states: seq<Plan>, steps: seq<Step>) {
    |states| == |steps| + 1 && forall i :: 0 <= i < |steps| ==> Next(limits, grace, states[i], steps[i], states[i + 1])
  }

  /** A plan about to begin with at least the base reserve left. */
  ghost predicate Begins(limits: Limits, p: Plan) {
    p.reserve == limits.baseReserve >= 0.0 && p.due == [] && limits.deadline - p.now >= limits.baseReserve
  }

  ghost predicate KeepsReserve(limits: Limits, grace: real, p: Plan) {
    && p.reserve >= limits.baseReserve >= 0.0
    && p.now <= limits.deadline - limits.baseReserve + grace
    && forall i :: 0 <= i < |p.due| ==> p.due[i] <= limits.deadline - limits.baseReserve + grace
  }

  lemma StepKeepsReserve(limits: Limits, grace: real, p: Plan, step: Step, q: Plan)
    requires KeepsReserve(limits, grace, p) && Next(limits, grace, p, step, q)
    ensures KeepsReserve(limits, grace, q)
  {
  }

  lemma {:induction false} RunKeepsReserve(limits: Limits, grace: real, states: seq<Plan>, steps: seq<Step>, n: nat)
    requires Runs(limits, grace, states, steps) && grace >= 0.0 && Begins(limits, states[0]) && n <= |steps|
    ensures KeepsReserve(limits, grace, states[n])
  {
    if n > 0 {
      RunKeepsReserve(limits, grace, states, steps, n - 1);
      StepKeepsReserve(limits, grace, states[n - 1], steps[n - 1], states[n]);
    }
  }

  /** Over any number of rounds and any interleaving of calls, planning leaves synthesis its
      configured maximum, or the base reserve less the margin and the grace of an abandoned
      call. */
  lemma PlanNeverStarvesSynthesis(limits: Limits, grace: real, states: seq<Plan>, steps: seq<Step>, tokens: Option<int>)
    requires Runs(limits, grace, states, steps) && grace >= 0.0 && Begins(limits, states[0])
    ensures var last := states[|steps|];
            SynthesisTimeout(limits, last.reserve, last.now, tokens)
            >= Min(limits.maxSynthesis, limits.baseReserve - limits.margin - grace)
  {
    RunKeepsReserve(limits, grace, states, steps, |steps|);
  }

  // ---------------------------------------------------------------------------
  // Settings.
  // ---------------------------------------------------------------------------

  datatype Settings = Settings(
    enabled: bool, requestDeadline: real, planDeadline: real, reserve: real, margin: real,
    synthesisTimeout: real, tokenBudget: int, costMax: real)

  /** What loading the settings insists on; `p95` is the measured latency of the synthesis model,
      when there is one. */
  predicate Valid(s: Settings, p95: Option<real>) {
    && s.planDeadline + s.reserve <= s.requestDeadline
    && (s.enabled && s.reserve > 0.0 && p95.Some? ==> s.reserve - s.margin >= p95.value)
  }

  function FromSettings(s: Settings, now: real): Limits {
    Limits(
      now + Max(0.0, if s.enabled then s.requestDeadline else UNLIMITED_DEADLINE),
      if s.enabled && s.tokenBudget > 0 then Some(s.tokenBudget) else None,
      if s.enabled && s.costMax > 0.0 then Some(s.costMax) else None,
      Max(0.0, s.margin), Max(0.0, s.synthesisTimeout), Max(0.0, s.reserve))
  }

  /** With validated settings synthesis gets the measured p95, or its maximum if that is less,
      as long as calls come back when they should. The plan may even start as late as the
      request's time less the plan's own. */
  lemma SynthesisGetsItsMeasuredTime(
    s: Settings, p95: real, started: real, states: seq<Plan>, steps: seq<Step>, tokens: Option<int>)
    requires Valid(s, Some(p95)) && s.enabled && s.reserve > 0.0 && s.margin >= 0.0 && s.planDeadline >= 0.0
    requires Runs(FromSettings(s, started), 0.0, states, steps)
    requires states[0].reserve == s.reserve && states[0].due == []
    requires started <= states[0].now <= started + s.planDeadline
    ensures var last := states[|steps|];
            SynthesisTimeout(FromSettings(s, started), last.reserve, last.now, tokens)
            >= Min(Max(0.0, s.synthesisTimeout), p95)
  {
    PlanNeverStarvesSynthesis(FromSettings(s, started), 0.0, states, steps, tokens);
  }

  /** One call that is never answered, made as late as it can be. */
  lemma OneStuckCall(limits: Limits, grace: real, timeout: real) returns (states: seq<Plan>, steps: seq<Step>)
    requires grace >= 0.0 && limits.baseReserve >= 0.0 && timeout > 0.0
    ensures Runs(limits, grace, states, steps) && Begins(limits, states[0])
    ensures states[|steps|].reserve == limits.baseReserve && states[|steps|].now == limits.deadline - limits.baseReserve + grace
  {
    var start := limits.deadline - limits.baseReserve - timeout;
    var end := start + timeout + grace;
    var p0 := Plan(start, limits.baseReserve, None, []);
    var p1 := p0.(due := [end]);
    var p2 := p1.(now := end);
    states, steps := [p0, p1, p2], [Call(timeout, None), Advance(end, 0)];
    assert Next(limits, grace, p0, steps[0], p1);
    assert Next(limits, grace, p1, steps[1], p2);
  }

  /** The bound is reached: one call that never answers costs synthesis the whole grace. */
  lemma StuckCallTakesTheGrace(limits: Limits, grace: real, timeout: real)
    requires grace > 0.0 && limits.baseReserve > limits.margin + grace && limits.margin >= 0.0
    requires limits.deadline >= limits.baseReserve + timeout && timeout > 0.0
    requires limits.maxSynthesis >= limits.baseReserve
    ensures exists states: seq<Plan>, steps: seq<Step> ::
              && Runs(limits, grace, states, steps) && Begins(limits, states[0])
              && SynthesisTimeout(limits, states[|steps|].reserve, states[|steps|].now, None)
                 == limits.baseReserve - limits.margin - grace
  {
    var states, steps := OneStuckCall(limits, grace, timeout);
  }

  /** The time kept back for synthesis is there after the plan, whatever size its prompt has. */
  ghost predicate ReserveIsThere(limits: Limits, p: Plan) {
    forall tokens ::
      SynthesisTimeout(limits, p.reserve, p.now, tokens) >= Min(limits.maxSynthesis, limits.baseReserve - limits.margin)
  }

  /** Every run of the plan leaves what is kept back exactly when abandoned calls get no grace, or
      nothing is promised, or the maximum is reached all the same. */
  lemma ReserveSurvivesExactly(limits: Limits, grace: real)
    requires grace >= 0.0 && limits.margin >= 0.0 && limits.maxSynthesis >= 0.0 && limits.baseReserve >= 0.0
    ensures (forall states: seq<Plan>, steps: seq<Step> ::
               Runs(limits, grace, states, steps) && Begins(limits, states[0]) ==> ReserveIsThere(limits, states[|steps|]))
            <==> || grace == 0.0 || limits.baseReserve <= limits.margin || limits.maxSynthesis == 0.0
                 || limits.maxSynthesis <= limits.baseReserve - limits.margin - grace
  {
    if grace == 0.0 || limits.baseReserve <= limits.margin || limits.maxSynthesis == 0.0
       || limits.maxSynthesis <= limits.baseReserve - limits.margin - grace {
      forall states: seq<Plan>, steps: seq<Step> | Runs(limits, grace, states, steps) && Begins(limits, states[0])
        ensures ReserveIsThere(limits, states[|steps|])
      {
        forall tokens {
          PlanNeverStarvesSynthesis(limits, grace, states, steps, tokens);
        }
      }
    } else {
      var states, steps := OneStuckCall(limits, grace, 1.0);
      var p := states[|steps|];
      assert SynthesisTimeout(limits, p.reserve, p.now, None) < Min(limits.maxSynthesis, limits.baseReserve - limits.margin);
      assert !ReserveIsThere(limits, p);
    }
  }
}
