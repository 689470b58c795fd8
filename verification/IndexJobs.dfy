/** An index job: the gateway dispatches a pass and polls the indexer until it can answer. The
    indexer runs passes under a lock and keeps the last report in memory. */
module IndexJobs {
  import opened Options

  datatype Report = Report(text: string)

  // ---------------------------------------------------------------------------
  // The indexer.
  // ---------------------------------------------------------------------------

  /** A pass that is over, with its report if it got as far as making one. */
  datatype Finish = Finish(pass: nat, report: Option<Report>)

  /** The lock, the last report, the passes under way and those that are over, oldest first. */
  datatype Indexer = Indexer(locked: bool, last: Option<Report>, active: set<nat>, started: nat, finished: seq<Finish>)

  /** A tool call asking for a pass, or a pass ending: with its report, or raised or cancelled. */
  datatype IndexerStep = Asked | Ends(pass: nat, report: Option<Report>) | Idle

  ghost predicate IndexerNext(s: Indexer, step: IndexerStep, t: Indexer) {
    match step
    case Asked =>
      if s.locked then t == s
      else t == s.(locked := true, active := s.active + {s.started}, started := s.started + 1)
    case Ends(pass, report) =>
      pass in s.active
      && t == s.(locked := false, active := s.active - {pass}, finished := s.finished + [Finish(pass, report)],
                 last := if report.Some? then report else s.last)
    case Idle => t == s
  }

  ghost predicate IndexerRuns(states: seq<Indexer>, steps: seq<IndexerStep>) {
    && |states| == |steps| + 1
    && !states[0].locked && states[0].active == {} && states[0].finished == []
    && forall i :: 0 <= i < |steps| ==> IndexerNext(states[i], steps[i], states[i + 1])
  }

  ghost predicate OneAtATime(s: Indexer) {
    if s.locked then s.started > 0 && s.active == {s.started - 1} else s.active == {}
  }

  /** Whoever asks and however passes end, at most one pass is under way: the newest, and only
      while the lock is held. */
  lemma {:induction false} PassesNeverOverlap(states: seq<Indexer>, steps: seq<IndexerStep>, n: nat)
    requires IndexerRuns(states, steps) && n <= |steps|
    ensures OneAtATime(states[n])
  {
    if n > 0 {
      PassesNeverOverlap(states, steps, n - 1);
      assert IndexerNext(states[n - 1], steps[n - 1], states[n]);
    }
  }

  lemma {:induction false} FinishedOnlyGrows(states: seq<Indexer>, steps: seq<IndexerStep>, i: nat, j: nat)
    requires IndexerRuns(states, steps) && i <= j <= |steps|
    ensures states[i].finished <= states[j].finished
    ensures |states[i].finished| == |states[j].finished| ==> states[j].last == states[i].last
  {
    if i < j {
      FinishedOnlyGrows(states, steps, i, j - 1);
      assert IndexerNext(states[j - 1], steps[j - 1], states[j]);
    }
  }

  /** A lock seen held and later free means a pass finished in between. */
  lemma {:induction false} SeenRunningThenIdle(states: seq<Indexer>, steps: seq<IndexerStep>, i: nat, j: nat)
    requires IndexerRuns(states, steps) && i <= j <= |steps| && states[i].locked && !states[j].locked
    ensures |states[j].finished| > |states[i].finished|
  {
    if states[j - 1].locked {
      FinishedOnlyGrows(states, steps, i, j - 1);
    } else {
      SeenRunningThenIdle(states, steps, i, j - 1);
    }
    assert IndexerNext(states[j - 1], steps[j - 1], states[j]);
  }

  /** From step `b` on, every pass ends with a report. */
  ghost predicate PassesReport(steps: seq<IndexerStep>, b: nat) {
    forall i :: b <= i < |steps| && steps[i].Ends? ==> steps[i].report.Some?
  }

  lemma {:induction false} LastReportIsOfTheLastPass(states: seq<Indexer>, steps: seq<IndexerStep>, b: nat, n: nat)
    requires IndexerRuns(states, steps) && PassesReport(steps, b) && b <= n <= |steps|
    ensures |states[n].finished| >= |states[b].finished|
    ensures var done := states[n].finished;
            |done| > |states[b].finished| ==> done[|done| - 1].report == states[n].last && states[n].last.Some?
  {
    if b < n {
      LastReportIsOfTheLastPass(states, steps, b, n - 1);
      assert IndexerNext(states[n - 1], steps[n - 1], states[n]);
    }
  }

  // ---------------------------------------------------------------------------
  // The gateway.
  // ---------------------------------------------------------------------------

  const UNREACHABLE_POLL_LIMIT := 2

  /** What `get_index_status` says, read at one moment of the indexer. */
  datatype Status = Status(running: bool, lastReport: Option<Report>)

  datatype Dispatch = Pending | Answered(report: Report) | Broken(error: string)

  /** One turn of the loop: how the dispatch stands, what the poll saw, and the clock after it. */
  datatype Turn = Turn(dispatch: Dispatch, status: Option<Status>, now: real)

  /** The variables of the loop. An empty error counts as none. */
  datatype Follower = Follower(dispatchError: string, observedRunning: bool, unreachable: nat)

  /** `Polled` carries no report when the indexer had none. */
  datatype Outcome =
    | AnsweredItself(report: Report)
    | Polled(lastReport: Option<Report>)
    | DispatchFailed(error: string)
    | TookTooLong
    | NeverStarted(detail: string)

  datatype Job = Job(deadline: real, startDeadline: real, baseline: Option<Report>)

  function WithDispatch(f: Follower, turn: Turn): Follower {
    if turn.dispatch.Broken? && f.dispatchError == "" then f.(dispatchError := turn.dispatch.error) else f
  }

  function WithStatus(f: Follower, turn: Turn): Follower {
    match turn.status
    case None => f.(unreachable := f.unreachable + 1)
    case Some(status) => f.(unreachable := 0, observedRunning := f.observedRunning || status.running)
  }

  function AfterTurn(f: Follower, turn: Turn): Follower {
    WithStatus(WithDispatch(f, turn), turn)
  }

  /** What a turn decides, if anything. */
  function Decision(f: Follower, turn: Turn, job: Job): Option<Outcome> {
    var g := AfterTurn(f, turn);
    if turn.dispatch.Answered? then Some(AnsweredItself(turn.dispatch.report))
    else if turn.status.None? && g.dispatchError != "" && g.unreachable >= UNREACHABLE_POLL_LIMIT
    then Some(DispatchFailed(g.dispatchError))
    else if turn.status.Some? && !turn.status.value.running
            && (f.observedRunning || turn.status.value.lastReport != job.baseline)
    then Some(Polled(turn.status.value.lastReport))
    else if turn.now > job.deadline then Some(TookTooLong)
    else if !g.observedRunning && turn.now > job.startDeadline then Some(NeverStarted(g.dispatchError))
    else None
  }

  function FollowerAt(turns: seq<Turn>, n: nat): Follower
    requires n <= |turns|
  {
    if n == 0 then Follower("", false, 0) else AfterTurn(FollowerAt(turns, n - 1), turns[n - 1])
  }

  function DecisionAt(turns: seq<Turn>, job: Job, n: nat): Option<Outcome>
    requires n < |turns|
  {
    Decision(FollowerAt(turns, n), turns[n], job)
  }

  /** The job ends at turn `n`, the first to decide anything. */
  ghost predicate EndsAt(turns: seq<Turn>, job: Job, n: nat, outcome: Outcome) {
    n < |turns| && DecisionAt(turns, job, n) == Some(outcome) && forall k: nat :: k < n ==> DecisionAt(turns, job, k).None?
  }

  ghost predicate SomeTurnDecides(turns: seq<Turn>, job: Job) {
    exists n: nat :: n < |turns| && DecisionAt(turns, job, n).Some?
  }

  /** The loop, over turns of which some decides. */
  method FollowIndexJob(turns: seq<Turn>, job: Job) returns (outcome: Outcome, polls: nat)
    requires SomeTurnDecides(turns, job)
    ensures polls > 0 && EndsAt(turns, job, polls - 1, outcome)
  {
    var dispatchError, observedRunning, unreachable := "", false, 0;
    polls := 0;
    while true
      invariant polls < |turns|
      invariant Follower(dispatchError, observedRunning, unreachable) == FollowerAt(turns, polls)
      invariant forall k: nat :: k < polls ==> DecisionAt(turns, job, k).None?
      decreases |turns| - polls
    {
      var turn := turns[polls];
      polls := polls + 1;
      match turn.dispatch {
        case Answered(report) => return AnsweredItself(report), polls;
        case Broken(error) =>
          if dispatchError == "" {
            dispatchError := error;
          }
        case Pending =>
      }
      if turn.status.None? {
        unreachable := unreachable + 1;
        if dispatchError != "" && unreachable >= UNREACHABLE_POLL_LIMIT {
          return DispatchFailed(dispatchError), polls;
        }
      } else {
        unreachable := 0;
        if turn.status.value.running {
          observedRunning := true;
        } else if observedRunning || turn.status.value.lastReport != job.baseline {
          return Polled(turn.status.value.lastReport), polls;
        }
      }
      if turn.now > job.deadline {
        return TookTooLong, polls;
      }
      if !observedRunning && turn.now > job.startDeadline {
        return NeverStarted(dispatchError), polls;
      }
    }
  }

  // ---------------------------------------------------------------------------
  // How long it follows.
  // ---------------------------------------------------------------------------

  /** Polls are at least `interval` apart. */
  ghost predicate Paced(turns: seq<Turn>, start: real, interval: real) {
    forall k: nat :: k < |turns| ==> turns[k].now >= start + k as real * interval
  }

  /** The number of polls is bounded by the timeout; by the start grace for as long as the
      indexer has not been seen running. */
  lemma PollsAreBounded(turns: seq<Turn>, job: Job, start: real, interval: real, n: nat, outcome: Outcome)
    requires Paced(turns, start, interval) && EndsAt(turns, job, n, outcome)
    ensures n > 0 ==> (n - 1) as real * interval <= job.deadline - start
    ensures n > 0 && !FollowerAt(turns, n).observedRunning ==> (n - 1) as real * interval <= job.startDeadline - start
  {
    if n > 0 {
      assert DecisionAt(turns, job, n - 1).None?;
    }
  }

  /** Polls a positive interval apart pass any deadline, and then the job ends. */
  lemma PacedTurnsDecide(turns: seq<Turn>, job: Job, start: real, interval: real)
    requires Paced(turns, start, interval) && interval > 0.0
    requires turns != [] && (|turns| - 1) as real * interval > job.deadline - start
    ensures SomeTurnDecides(turns, job)
  {
    assert DecisionAt(turns, job, |turns| - 1).Some?;
  }

  /** Why a job fails: the dispatch broke and the last two polls both found nobody; or the clock
      ran out, on the pass or on its start. */
  lemma WhyAJobFails(turns: seq<Turn>, job: Job, n: nat, outcome: Outcome)
    requires EndsAt(turns, job, n, outcome)
    ensures outcome.DispatchFailed? ==>
              && outcome.error != "" && n > 0 && turns[n].status.None? && turns[n - 1].status.None?
              && exists k :: 0 <= k <= n && turns[k].dispatch == Broken(outcome.error)
    ensures outcome.TookTooLong? ==> turns[n].now > job.deadline
    ensures outcome.NeverStarted? ==>
              turns[n].now > job.startDeadline
              && forall k :: 0 <= k <= n && turns[k].status.Some? ==> !turns[k].status.value.running
  {
    if outcome.DispatchFailed? {
      ErrorCameFromTheDispatch(turns, n + 1);
      UnreachableCounts(turns, n);
    }
    if outcome.NeverStarted? {
      RunningIsRemembered(turns, n + 1);
    }
  }

  lemma {:induction false} ErrorCameFromTheDispatch(turns: seq<Turn>, n: nat)
    requires n <= |turns| && FollowerAt(turns, n).dispatchError != ""
    ensures exists k :: 0 <= k < n && turns[k].dispatch == Broken(FollowerAt(turns, n).dispatchError)
  {
    if FollowerAt(turns, n - 1).dispatchError != "" {
      ErrorCameFromTheDispatch(turns, n - 1);
    } else {
      assert turns[n - 1].dispatch == Broken(FollowerAt(turns, n).dispatchError);
    }
  }

  lemma {:induction false} UnreachableCounts(turns: seq<Turn>, n: nat)
    requires n <= |turns|
    ensures FollowerAt(turns, n).unreachable > 0 ==> n > 0 && turns[n - 1].status.None?
  {
  }

  lemma {:induction false} RunningIsRemembered(turns: seq<Turn>, n: nat)
    requires n <= |turns| && !FollowerAt(turns, n).observedRunning
    ensures forall k :: 0 <= k < n && turns[k].status.Some? ==> !turns[k].status.value.running
  {
    if n > 0 {
      RunningIsRemembered(turns, n - 1);
    }
  }

  // ---------------------------------------------------------------------------
  // Whose report it is.
  // ---------------------------------------------------------------------------

  function StatusOf(s: Indexer): Status {
    Status(s.locked, s.last)
  }

  /** The polls saw the indexer at `times`, in order and none before the baseline. */
  ghost predicate Observes(turns: seq<Turn>, states: seq<Indexer>, baseline: nat, times: seq<nat>) {
    && |times| == |turns|
    && baseline < |states|
    && (forall k :: 0 <= k < |times| ==> baseline <= times[k] < |states|)
    && (forall i, j :: 0 <= i < j < |times| ==> times[i] <= times[j])
    && forall k :: 0 <= k < |turns| && turns[k].status.Some? ==> turns[k].status.value == StatusOf(states[times[k]])
  }

  lemma {:induction false} ObservedRunningMeansSeen(turns: seq<Turn>, n: nat)
    requires n <= |turns| && FollowerAt(turns, n).observedRunning
    ensures exists k :: 0 <= k < n && turns[k].status.Some? && turns[k].status.value.running
  {
    if !(turns[n - 1].status.Some? && turns[n - 1].status.value.running) {
      ObservedRunningMeansSeen(turns, n - 1);
    }
  }

  /** A pass running at the baseline, or a baseline that is the last report there was. */
  ghost predicate BaselineHolds(job: Job, s: Indexer) {
    s.locked || job.baseline == s.last
  }

  /** When the baseline holds and passes end with reports, a report the polling branch returns is
      that of the last pass, which finished after the baseline. */
  lemma PolledReportIsFresh(
    turns: seq<Turn>, job: Job, n: nat, report: Option<Report>,
    states: seq<Indexer>, steps: seq<IndexerStep>, baseline: nat, times: seq<nat>)
    requires IndexerRuns(states, steps) && Observes(turns, states, baseline, times) && PassesReport(steps, baseline)
    requires BaselineHolds(job, states[baseline])
    requires EndsAt(turns, job, n, Polled(report))
    ensures var done := states[times[n]].finished;
            && |done| > |states[baseline].finished|
            && report == done[|done| - 1].report && report.Some?
  {
    APassEndedBeforeThePoll(turns, job, n, report, states, steps, baseline, times);
    LastReportIsOfTheLastPass(states, steps, baseline, times[n]);
  }

  /** When the baseline holds, the polling branch answers only after a pass is over. */
  lemma APassEndedBeforeThePoll(
    turns: seq<Turn>, job: Job, n: nat, report: Option<Report>,
    states: seq<Indexer>, steps: seq<IndexerStep>, baseline: nat, times: seq<nat>)
    requires IndexerRuns(states, steps) && Observes(turns, states, baseline, times)
    requires BaselineHolds(job, states[baseline])
    requires EndsAt(turns, job, n, Polled(report))
    ensures report == states[times[n]].last
    ensures |states[times[n]].finished| > |states[baseline].finished|
  {
    var t := times[n];
    FinishedOnlyGrows(states, steps, baseline, t);
    if FollowerAt(turns, n).observedRunning {
      ObservedRunningMeansSeen(turns, n);
      var k :| 0 <= k < n && turns[k].status.Some? && turns[k].status.value.running;
      SeenRunningThenIdle(states, steps, times[k], t);
      FinishedOnlyGrows(states, steps, baseline, times[k]);
    } else if states[baseline].locked {
      SeenRunningThenIdle(states, steps, baseline, t);
    }
  }

  /** The report of a pass that ended after `s` and before `t`. */
  ghost predicate IsFresh(report: Option<Report>, s: Indexer, t: Indexer) {
    report.Some? && exists k :: |s.finished| <= k < |t.finished| && t.finished[k].report == report
  }

  /** From step `b` on, a pass ends without a report only after one that ended with a report. */
  ghost predicate FirstPassReports(steps: seq<IndexerStep>, b: nat) {
    forall i :: b <= i < |steps| && EndsWithout(steps[i]) ==> ReportedBetween(steps, b, i)
  }

  predicate EndsWithout(step: IndexerStep) {
    step.Ends? && step.report.None?
  }

  ghost predicate ReportedBetween(steps: seq<IndexerStep>, b: nat, n: nat)
    requires n <= |steps|
  {
    exists j :: b <= j < n && steps[j].Ends? && steps[j].report.Some?
  }

  /** A report was made in between exactly when some pass ended with one, and then the last
      report there is comes from in between. */
  lemma {:induction false} LastReportIsFresh(states: seq<Indexer>, steps: seq<IndexerStep>, b: nat, n: nat)
    requires IndexerRuns(states, steps) && b <= n <= |steps|
    ensures if ReportedBetween(steps, b, n) then IsFresh(states[n].last, states[b], states[n])
            else forall k :: |states[b].finished| <= k < |states[n].finished| ==> states[n].finished[k].report.None?
  {
    if b < n {
      LastReportIsFresh(states, steps, b, n - 1);
      FinishedOnlyGrows(states, steps, b, n - 1);
      assert IndexerNext(states[n - 1], steps[n - 1], states[n]);
      var step, done := steps[n - 1], states[n].finished;
      if step.Ends? && step.report.Some? {
        assert done[|done| - 1].report == states[n].last;
      } else if ReportedBetween(steps, b, n) {
        assert ReportedBetween(steps, b, n - 1);
        var k :| |states[b].finished| <= k < |states[n - 1].finished| && states[n - 1].finished[k].report == states[n - 1].last;
        assert done[k].report == states[n].last;
      }
    }
  }

  /** Some pass ended since `b`, so one that made a report did. */
  lemma {:induction false} EndedMeansReported(states: seq<Indexer>, steps: seq<IndexerStep>, b: nat, n: nat)
    requires IndexerRuns(states, steps) && b <= n <= |steps| && FirstPassReports(steps, b)
    requires |states[n].finished| > |states[b].finished|
    ensures ReportedBetween(steps, b, n)
  {
    assert IndexerNext(states[n - 1], steps[n - 1], states[n]);
    if |states[n - 1].finished| > |states[b].finished| {
      EndedMeansReported(states, steps, b, n - 1);
    } else if EndsWithout(steps[n - 1]) {
      assert ReportedBetween(steps, b, n - 1);
    }
  }

  /** Whatever the polls see from the baseline on, a report the polling branch returns is fresh. */
  ghost predicate OnlyFreshReports(job: Job, states: seq<Indexer>, baseline: nat)
    requires baseline < |states|
  {
    forall turns: seq<Turn>, times: seq<nat>, n: nat, report: Option<Report> ::
      Observes(turns, states, baseline, times) && EndsAt(turns, job, n, Polled(report)) ==>
        IsFresh(report, states[baseline], states[times[n]])
  }

  /** A poll at the baseline itself, before anything else happens. */
  function PollAtOnce(s: Indexer): seq<Turn> {
    [Turn(Pending, Some(StatusOf(s)), 0.0)]
  }

  /** Where the baseline does not hold, a poll of the same idle indexer takes the last report for
      a new one, though nothing has finished. */
  lemma FailedBaselineReturnsAnOldReport(
    job: Job, states: seq<Indexer>, steps: seq<IndexerStep>, baseline: nat)
    requires IndexerRuns(states, steps) && baseline < |states| && !BaselineHolds(job, states[baseline])
    ensures var s := states[baseline];
            && Observes(PollAtOnce(s), states, baseline, [baseline])
            && EndsAt(PollAtOnce(s), job, 0, Polled(s.last))
            && !IsFresh(s.last, s, s)
  {
    assert FollowerAt(PollAtOnce(states[baseline]), 0) == Follower("", false, 0);
  }

  /** A poll while the `i`-th step is still to come, and one right after it. */
  function PollsAround(states: seq<Indexer>, i: nat, now: real): seq<Turn>
    requires i + 1 < |states|
  {
    [Turn(Pending, Some(StatusOf(states[i])), now), Turn(Pending, Some(StatusOf(states[i + 1])), now)]
  }

  /** A first pass that ends without a report, seen running, lets the report before it through. */
  lemma PassWithoutReportLetsTheOldOneThrough(
    job: Job, states: seq<Indexer>, steps: seq<IndexerStep>, baseline: nat, i: nat)
    requires IndexerRuns(states, steps) && baseline <= i < |steps|
    requires EndsWithout(steps[i]) && !ReportedBetween(steps, baseline, i)
    ensures var turns, last := PollsAround(states, i, job.deadline), states[i].last;
            && Observes(turns, states, baseline, [i, i + 1])
            && EndsAt(turns, job, 1, Polled(last))
            && !IsFresh(last, states[baseline], states[i + 1])
  {
    PassesNeverOverlap(states, steps, i);
    LastReportIsFresh(states, steps, baseline, i + 1);
    assert IndexerNext(states[i], steps[i], states[i + 1]);
    var turns := PollsAround(states, i, job.deadline);
    assert FollowerAt(turns, 0) == Follower("", false, 0);
    assert FollowerAt(turns, 1) == Follower("", true, 0);
  }

  /** Every polled report is that of a pass that finished after the baseline exactly when the
      baseline holds and the first pass to end after it makes a report. A failed baseline poll does
      harm when the indexer is idle and has a report. */
  lemma FreshExactlyWhenTheBaselineHolds(job: Job, states: seq<Indexer>, steps: seq<IndexerStep>, baseline: nat)
    requires IndexerRuns(states, steps) && baseline < |states|
    ensures OnlyFreshReports(job, states, baseline)
            <==> BaselineHolds(job, states[baseline]) && FirstPassReports(steps, baseline)
  {
    if !BaselineHolds(job, states[baseline]) {
      FailedBaselineReturnsAnOldReport(job, states, steps, baseline);
      assert states[[baseline][0]] == states[baseline];
    } else if !FirstPassReports(steps, baseline) {
      var i :| baseline <= i < |steps| && EndsWithout(steps[i]) && !ReportedBetween(steps, baseline, i);
      PassWithoutReportLetsTheOldOneThrough(job, states, steps, baseline, i);
      assert states[[i, i + 1][1]] == states[i + 1];
    } else {
      forall turns: seq<Turn>, times: seq<nat>, n: nat, report: Option<Report>
        | Observes(turns, states, baseline, times) && EndsAt(turns, job, n, Polled(report))
        ensures IsFresh(report, states[baseline], states[times[n]])
      {
        APassEndedBeforeThePoll(turns, job, n, report, states, steps, baseline, times);
        EndedMeansReported(states, steps, baseline, times[n]);
        LastReportIsFresh(states, steps, baseline, times[n]);
      }
    }
  }

  /** A pass that ends without a report, seen running, lets the baseline's own report through. */
  lemma PassWithoutReportReturnsTheOldOne(before: Report, job: Job)
    requires job.baseline == Some(before) && job.deadline > 0.0 && job.startDeadline > 0.0
    ensures exists turns: seq<Turn>, states: seq<Indexer>, steps: seq<IndexerStep>, times: seq<nat> ::
              && IndexerRuns(states, steps) && Observes(turns, states, 0, times) && states[0].last == job.baseline
              && EndsAt(turns, job, 1, Polled(Some(before)))
  {
    var s0 := Indexer(false, Some(before), {}, 0, []);
    var s1 := s0.(locked := true, active := {0}, started := 1);
    var s2 := s1.(locked := false, active := {}, finished := [Finish(0, None)]);
    var states, steps := [s0, s1, s2], [Asked, Ends(0, None)];
    assert s0.active + {0} == {0} && s1.active - {0} == {};
    assert IndexerNext(s0, steps[0], s1) && IndexerNext(s1, steps[1], s2);
    assert IndexerRuns(states, steps);
    var turns := [Turn(Pending, Some(StatusOf(s1)), 0.0), Turn(Pending, Some(StatusOf(s2)), 0.0)];
    var times: seq<nat> := [1, 2];
    assert Observes(turns, states, 0, times);
    assert FollowerAt(turns, 0) == Follower("", false, 0);
    assert FollowerAt(turns, 1) == Follower("", true, 0);
    assert DecisionAt(turns, job, 0).None?;
    assert EndsAt(turns, job, 1, Polled(Some(before)));
  }

  // ---------------------------------------------------------------------------
  // The record.
  // ---------------------------------------------------------------------------

  datatype JobStatus = PendingJob | Running | Done | Failed

  function JobOf(baseline: Option<Status>, start: real, timeout: real, grace: real): Job {
    Job(start + timeout, start + grace, if baseline.Some? then baseline.value.lastReport else None)
  }

  /** What a job reports: the pass's report, or that there was none. */
  datatype Payload = Payload(report: Option<Report>)

  function ReportOf(outcome: Outcome): Option<Payload> {
    match outcome
    case AnsweredItself(r) => Some(Payload(Some(r)))
    case Polled(r) => Some(Payload(r))
    case _ => None
  }

  function ErrorOf(outcome: Outcome): Option<string> {
    match outcome
    case DispatchFailed(e) => Some(e)
    case TookTooLong => Some("index did not finish")
    case NeverStarted(detail) => Some("indexer did not start: " + detail)
    case _ => None
  }

  class IndexJobRecord {
    var status: JobStatus
    var report: Option<Payload>
    var error: Option<string>
    ghost var trail: seq<JobStatus>

    /** A report only when done, an error only when failed, and statuses in order. */
    ghost predicate Valid()
      reads this
    {
      && trail != [] && trail[|trail| - 1] == status
      && trail <= [PendingJob, Running, if status == Failed then Failed else Done]
      && (report.Some? <==> status == Done) && (error.Some? <==> status == Failed)
    }

    constructor ()
      ensures Valid() && status == PendingJob
    {
      status, report, error, trail := PendingJob, None, None, [PendingJob];
    }

    /** `_run_index_job`, given how the baseline poll went. */
    method Run(baseline: Option<Status>, start: real, timeout: real, grace: real, turns: seq<Turn>)
      returns (outcome: Outcome, polls: nat)
      requires Valid() && status == PendingJob
      requires SomeTurnDecides(turns, JobOf(baseline, start, timeout, grace))
      modifies this
      ensures Valid() && (status == Done || status == Failed)
      ensures report == ReportOf(outcome) && error == ErrorOf(outcome)
      ensures polls > 0 && EndsAt(turns, JobOf(baseline, start, timeout, grace), polls - 1, outcome)
    {
      status := Running;
      trail := trail + [Running];
      outcome, polls := FollowIndexJob(turns, JobOf(baseline, start, timeout, grace));
      match outcome {
        case AnsweredItself(r) => report, status := Some(Payload(Some(r))), Done;
        case Polled(r) => report, status := Some(Payload(r)), Done;
        case _ => error, status := ErrorOf(outcome), Failed;
      }
      trail := trail + [status];
    }
  }
}
