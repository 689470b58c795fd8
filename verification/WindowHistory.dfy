/** The pruned deque against the whole history of admissions. */
module WindowHistory {
  import opened RateLimiter

  predicate Sorted(times: seq<real>) {
    forall i, j :: 0 <= i < j < |times| ==> times[i] <= times[j]
  }

  /** The admitted times among the first `n` arrivals that lie after `lo`, in order. */
  function AdmittedAfter(times: seq<real>, granted: seq<bool>, n: nat, lo: real): seq<real>
    requires n <= |times| && n <= |granted|
  {
    if n == 0 then []
    else
      AdmittedAfter(times, granted, n - 1, lo)
      + (if granted[n - 1] && times[n - 1] > lo then [times[n - 1]] else [])
  }

  /** How many of the first `n` arrivals were admitted in the window (lo, hi]. */
  function CountIn(times: seq<real>, granted: seq<bool>, n: nat, lo: real, hi: real): nat
    requires n <= |times| && n <= |granted|
  {
    if n == 0 then 0
    else
      CountIn(times, granted, n - 1, lo, hi)
      + (if granted[n - 1] && lo < times[n - 1] <= hi then 1 else 0)
  }

  lemma {:induction false} AdmittedAfterFacts(times: seq<real>, granted: seq<bool>, n: nat, lo: real, hi: real)
    requires n <= |times| && n <= |granted| && Sorted(times)
    requires forall i :: 0 <= i < n ==> times[i] <= hi
    ensures |AdmittedAfter(times, granted, n, lo)| == CountIn(times, granted, n, lo, hi)
    ensures Sorted(AdmittedAfter(times, granted, n, lo))
    ensures forall k :: 0 <= k < |AdmittedAfter(times, granted, n, lo)| ==>
              lo < AdmittedAfter(times, granted, n, lo)[k] && (n > 0 ==> AdmittedAfter(times, granted, n, lo)[k] <= times[n - 1])
  {
    if n > 0 {
      AdmittedAfterFacts(times, granted, n - 1, lo, hi);
    }
  }

  /** Pruning a deque that holds everything after `lo` leaves everything after a later cutoff. */
  lemma {:induction false} PruneIsFilter(times: seq<real>, granted: seq<bool>, n: nat, lo: real, cutoff: real)
    requires n <= |times| && n <= |granted| && Sorted(times) && lo <= cutoff
    ensures Prune(AdmittedAfter(times, granted, n, lo), cutoff) == AdmittedAfter(times, granted, n, cutoff)
  {
    if n > 0 {
      PruneIsFilter(times, granted, n - 1, lo, cutoff);
      AdmittedAfterFacts(times, granted, n - 1, lo, times[n - 1]);
      var front := AdmittedAfter(times, granted, n - 1, lo);
      if granted[n - 1] && times[n - 1] > lo {
        PruneAppend(front, times[n - 1], cutoff);
      } else {
        assert front + [] == front;
      }
    }
  }

  lemma {:induction false} PruneAppend(bucket: seq<real>, t: real, cutoff: real)
    requires forall k :: 0 <= k < |bucket| ==> bucket[k] <= t
    ensures Prune(bucket + [t], cutoff) == Prune(bucket, cutoff) + (if t > cutoff then [t] else [])
  {
    if bucket == [] {
      assert Prune([t][1..], cutoff) == [];
    } else if bucket[0] <= cutoff {
      assert (bucket + [t])[1..] == bucket[1..] + [t];
      PruneAppend(bucket[1..], t, cutoff);
    }
  }

  /** Before the arrival at `n` is decided, pruning leaves exactly the admissions in its window. */
  lemma {:induction false} PrunedBucketIsTheWindow(cfg: Config, times: seq<real>, g: seq<bool>, n: nat)
    requires cfg.maxRequests > 0 && Sorted(times) && AreDecisions(cfg, times, g) && n < |times|
    ensures Prune(Bucket(cfg, times, n), times[n] - cfg.windowS) == AdmittedAfter(times, g, n, times[n] - cfg.windowS)
  {
    if n > 0 {
      var m, lo, cutoff := n - 1, times[n - 1] - cfg.windowS, times[n] - cfg.windowS;
      PrunedBucketIsTheWindow(cfg, times, g, m);
      var window := AdmittedAfter(times, g, m, lo);
      PruneIsFilter(times, g, m, lo, cutoff);
      assert g[m] == Granted(cfg, times, m);
      if g[m] {
        AdmittedAfterFacts(times, g, m, lo, times[m]);
        PruneAppend(window, times[m], cutoff);
      } else {
        assert AdmittedAfter(times, g, m, cutoff) + [] == AdmittedAfter(times, g, m, cutoff);
      }
    }
  }

  lemma GrantedByThePrunedBucket(cfg: Config, times: seq<real>, g: seq<bool>, i: nat)
    requires AreDecisions(cfg, times, g) && i < |times|
    ensures g[i] <==> cfg.maxRequests <= 0 || |Prune(Bucket(cfg, times, i), times[i] - cfg.windowS)| < cfg.maxRequests
  {
  }

  lemma WindowIsCounted(cfg: Config, times: seq<real>, g: seq<bool>, i: nat)
    requires cfg.maxRequests > 0 && Sorted(times) && AreDecisions(cfg, times, g) && i < |times|
    ensures |Prune(Bucket(cfg, times, i), times[i] - cfg.windowS)| == CountIn(times, g, i, times[i] - cfg.windowS, times[i])
  {
    PrunedBucketIsTheWindow(cfg, times, g, i);
    AdmittedAfterFacts(times, g, i, times[i] - cfg.windowS, times[i]);
  }

  /** Refinement: a request is granted exactly when fewer than `maxRequests` of the key's
      earlier admissions lie in (now - window, now], counted over the whole unpruned past. */
  lemma AllowCountsTheWholeHistory(cfg: Config, times: seq<real>, g: seq<bool>, i: nat)
    requires Sorted(times) && AreDecisions(cfg, times, g) && i < |times|
    ensures g[i] <==> (cfg.maxRequests <= 0
                       || CountIn(times, g, i, times[i] - cfg.windowS, times[i]) < cfg.maxRequests)
  {
    GrantedByThePrunedBucket(cfg, times, g, i);
    hide CountIn, Prune, Bucket, AdmittedAfter, Granted;
    if cfg.maxRequests > 0 {
      WindowIsCounted(cfg, times, g, i);
    }
  }

  /** The same for a run that interleaves many keys. */
  lemma AllowInAnyInterleaving(cfg: Config, run: seq<Arrival>, a: Arrival, g: seq<bool>)
    requires Sorted(TimesOf(run, a.key) + [a.time])
    requires AreDecisions(cfg, TimesOf(run, a.key) + [a.time], g)
    ensures var past := TimesOf(run, a.key);
            Decide(cfg, BucketOf(Hits(cfg, run), a.key), a.time).0
            <==> (cfg.maxRequests <= 0
                  || CountIn(past + [a.time], g, |past|, a.time - cfg.windowS, a.time) < cfg.maxRequests)
  {
    var past := TimesOf(run, a.key);
    KeysAreIndependent(cfg, run, a.key);
    BucketOfPrefix(cfg, past, [a.time], |past|);
    assert g[|past|] == Granted(cfg, past + [a.time], |past|);
    AllowCountsTheWholeHistory(cfg, past + [a.time], g, |past|);
  }

  /** Each deque stays sorted and no longer than the cap. */
  lemma {:induction false} DequeStaysBounded(cfg: Config, times: seq<real>, g: seq<bool>, n: nat)
    requires cfg.maxRequests > 0 && Sorted(times) && AreDecisions(cfg, times, g) && n <= |times|
    ensures Sorted(Bucket(cfg, times, n)) && |Bucket(cfg, times, n)| <= cfg.maxRequests
  {
    hide Granted, Prune, AdmittedAfter, CountIn;
    if n > 0 {
      var m, lo := n - 1, times[n - 1] - cfg.windowS;
      DequeStaysBounded(cfg, times, g, m);
      PrunedBucketIsTheWindow(cfg, times, g, m);
      AdmittedAfterFacts(times, g, m, lo, times[m]);
      DequeStep(cfg, Bucket(cfg, times, m), times[m]);
    }
  }

  lemma DequeStep(cfg: Config, bucket: seq<real>, now: real)
    requires cfg.maxRequests > 0 && |bucket| <= cfg.maxRequests
    requires var kept := Prune(bucket, now - cfg.windowS);
             Sorted(kept) && forall k :: 0 <= k < |kept| ==> kept[k] <= now
    ensures var after := Decide(cfg, bucket, now).1;
            Sorted(after) && |after| <= cfg.maxRequests
  {
    hide Prune;
  }

  lemma {:induction false} CountMonotone(times: seq<real>, granted: seq<bool>, n: nat, lo: real, hi: real, wideLo: real, wideHi: real)
    requires n <= |times| && n <= |granted|
    requires wideLo <= lo && forall i :: 0 <= i < n && times[i] <= hi ==> times[i] <= wideHi
    ensures CountIn(times, granted, n, lo, hi) <= CountIn(times, granted, n, wideLo, wideHi)
  {
    if n > 0 {
      CountMonotone(times, granted, n - 1, lo, hi, wideLo, wideHi);
    }
  }

  /** Safety over every run: no window (x - window, x], wherever it is placed, ever holds
      more than `maxRequests` admissions. */
  lemma {:induction false} NoWindowOverflows(cfg: Config, times: seq<real>, g: seq<bool>, n: nat, x: real)
    requires cfg.maxRequests > 0 && Sorted(times) && AreDecisions(cfg, times, g) && n <= |times|
    ensures CountIn(times, g, n, x - cfg.windowS, x) <= cfg.maxRequests
  {
    hide Granted;
    if n > 0 {
      NoWindowOverflows(cfg, times, g, n - 1, x);
      var t := times[n - 1];
      if g[n - 1] && x - cfg.windowS < t <= x {
        AllowCountsTheWholeHistory(cfg, times, g, n - 1);
        CountMonotone(times, g, n - 1, x - cfg.windowS, x, t - cfg.windowS, t);
      }
    }
  }
}
