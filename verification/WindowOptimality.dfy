/** No policy that keeps the window bound gets ahead of the limiter. */
module WindowOptimality {
  import opened RateLimiter
  import opened WindowHistory

  /** Any admission policy that keeps the bound in the windows ending at its own admissions. */
  ghost predicate Respects(cfg: Config, times: seq<real>, granted: seq<bool>)
    requires |granted| == |times|
  {
    forall i :: 0 <= i < |times| && granted[i] ==>
      CountIn(times, granted, i + 1, times[i] - cfg.windowS, times[i]) <= cfg.maxRequests
  }

  function Total(granted: seq<bool>, n: nat): nat
    requires n <= |granted|
  {
    if n == 0 then 0 else Total(granted, n - 1) + (if granted[n - 1] then 1 else 0)
  }

  /** The first index, at most `n`, from which on the sorted times lie after `lo`. */
  function FirstAfter(times: seq<real>, n: nat, lo: real): (m: nat)
    requires n <= |times| && Sorted(times)
    ensures m <= n
    ensures forall i :: 0 <= i < m ==> times[i] <= lo
    ensures forall i :: m <= i < n ==> times[i] > lo
  {
    if n == 0 || times[n - 1] <= lo then n else FirstAfter(times, n - 1, lo)
  }

  lemma {:induction false} CountIsATail(times: seq<real>, granted: seq<bool>, m: nat, n: nat, lo: real, hi: real)
    requires m <= n <= |times| && n <= |granted|
    requires forall i :: 0 <= i < m ==> times[i] <= lo
    requires forall i :: m <= i < n ==> lo < times[i] <= hi
    ensures CountIn(times, granted, n, lo, hi) == Total(granted, n) - Total(granted, m)
  {
    if n > m {
      CountIsATail(times, granted, m, n - 1, lo, hi);
    } else if n > 0 {
      CountIsATail(times, granted, m - 1, n - 1, lo, hi);
    }
  }

  /** Optimality: in every prefix the limiter has admitted at least as many requests as any
      policy that respects the window bound. */
  lemma {:induction false} GreedyStaysAhead(cfg: Config, times: seq<real>, g: seq<bool>, other: seq<bool>, n: nat)
    requires cfg.maxRequests > 0 && Sorted(times) && AreDecisions(cfg, times, g) && |other| == |times| && n <= |times|
    requires Respects(cfg, times, other)
    ensures Total(g, n) >= Total(other, n)
    decreases n
  {
    if n > 0 {
      var k := n - 1;
      GreedyStaysAhead(cfg, times, g, other, k);
      if other[k] && !g[k] {
        var lo := times[k] - cfg.windowS;
        AllowCountsTheWholeHistory(cfg, times, g, k);
        var m := FirstAfter(times, k, lo);
        CountIsATail(times, g, m, k, lo, times[k]);
        CountIsATail(times, other, m, k, lo, times[k]);
        GreedyStaysAhead(cfg, times, g, other, m);
      }
    }
  }

  /** Hence the limiter's j-th admission is never later than the other policy's. */
  lemma JthAdmissionIsNeverLater(cfg: Config, times: seq<real>, g: seq<bool>, other: seq<bool>, j: nat, at: nat)
    requires cfg.maxRequests > 0 && Sorted(times) && AreDecisions(cfg, times, g) && |other| == |times| && at < |times|
    requires Respects(cfg, times, other)
    requires other[at] && Total(other, at) == j
    ensures exists i :: 0 <= i <= at && g[i] && Total(g, i) == j && times[i] <= times[at]
  {
    GreedyStaysAhead(cfg, times, g, other, at + 1);
    var i := AdmissionNumber(g, at + 1, j);
    assert i == at || times[i] <= times[at];
  }

  lemma {:induction false} AdmissionNumber(granted: seq<bool>, n: nat, j: nat) returns (i: nat)
    requires n <= |granted| && Total(granted, n) > j
    ensures i < n && granted[i] && Total(granted, i) == j
  {
    if granted[n - 1] && Total(granted, n - 1) == j {
      i := n - 1;
    } else {
      i := AdmissionNumber(granted, n - 1, j);
    }
  }
}
