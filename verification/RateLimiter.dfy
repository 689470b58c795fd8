/** The gateway's sliding-window rate limiter: a pruned deque per client key.

    The deque refines the plain rule "count every past admission in
    (now - window, now]", and that rule is the best possible one: no policy that
    keeps the window bound ever gets ahead of it. Times are reals. */
module RateLimiter {

  datatype Config = Config(maxRequests: int, windowS: real)

  datatype Arrival = Arrival(key: string, time: real)

  /** The deque after popping from the left while its head is at or before `cutoff`. */
  function Prune(bucket: seq<real>, cutoff: real): (rest: seq<real>)
    ensures |rest| <= |bucket|
  {
    if bucket != [] && bucket[0] <= cutoff then Prune(bucket[1..], cutoff) else bucket
  }

  /** One decision for one key: the answer and the deque left behind. */
  function Decide(cfg: Config, bucket: seq<real>, now: real): (bool, seq<real>) {
    if cfg.maxRequests <= 0 then (true, bucket)
    else
      var kept := Prune(bucket, now - cfg.windowS);
      if |kept| >= cfg.maxRequests then (false, kept) else (true, kept + [now])
  }

  function BucketOf(hits: map<string, seq<real>>, key: string): seq<real> {
    if key in hits then hits[key] else []
  }

  class SlidingWindowRateLimiter {
    const maxRequests: int
    const windowS: real
    var hits: map<string, seq<real>>

    constructor (maxRequests: int, windowS: real)
      ensures this.maxRequests == maxRequests && this.windowS == windowS && hits == map[]
    {
      this.maxRequests, this.windowS, hits := maxRequests, windowS, map[];
    }

    method Allow(key: string, now: real) returns (allowed: bool)
      modifies this
      ensures allowed == Decide(Config(maxRequests, windowS), BucketOf(old(hits), key), now).0
      ensures BucketOf(hits, key) == Decide(Config(maxRequests, windowS), BucketOf(old(hits), key), now).1
      ensures hits == if maxRequests <= 0 then old(hits) else old(hits)[key := BucketOf(hits, key)]
    {
      if maxRequests <= 0 {
        return true;
      }
      if key !in hits {
        hits := hits[key := []];
      }
      var bucket := hits[key];
      var cutoff := now - windowS;
      while bucket != [] && bucket[0] <= cutoff
        invariant Prune(bucket, cutoff) == Prune(BucketOf(old(hits), key), cutoff)
        decreases |bucket|
      {
        bucket := bucket[1..];
      }
      allowed := |bucket| < maxRequests;
      if allowed {
        bucket := bucket + [now];
      }
      hits := hits[key := bucket];
    }
  }

  // ---------------------------------------------------------------------------
  // Whole runs. `Hits` is the limiter's field after a run of arrivals; `Bucket` and
  // `Granted` describe a run of one key alone.
  // ---------------------------------------------------------------------------

  function Hits(cfg: Config, run: seq<Arrival>): map<string, seq<real>> {
    if run == [] then map[]
    else
      var before := Hits(cfg, run[..|run| - 1]);
      var a := run[|run| - 1];
      if cfg.maxRequests <= 0 then before
      else before[a.key := Decide(cfg, BucketOf(before, a.key), a.time).1]
  }

  function TimesOf(run: seq<Arrival>, key: string): seq<real> {
    if run == [] then []
    else
      var a := run[|run| - 1];
      TimesOf(run[..|run| - 1], key) + (if a.key == key then [a.time] else [])
  }

  /** One key's deque after the first `n` of its arrivals. */
  function Bucket(cfg: Config, times: seq<real>, n: nat): seq<real>
    requires n <= |times|
  {
    if n == 0 then [] else Decide(cfg, Bucket(cfg, times, n - 1), times[n - 1]).1
  }

  /** The answer given to the arrival at index `i` of one key. */
  predicate Granted(cfg: Config, times: seq<real>, i: nat)
    requires i < |times|
  {
    Decide(cfg, Bucket(cfg, times, i), times[i]).0
  }

  /** `granted` lists the limiter's answers to the arrivals of one key. */
  ghost predicate AreDecisions(cfg: Config, times: seq<real>, granted: seq<bool>) {
    |granted| == |times| && forall i :: 0 <= i < |times| ==> granted[i] == Granted(cfg, times, i)
  }

  lemma {:induction false} BucketOfPrefix(cfg: Config, times: seq<real>, more: seq<real>, n: nat)
    requires n <= |times|
    ensures Bucket(cfg, times + more, n) == Bucket(cfg, times, n)
  {
    if n > 0 {
      BucketOfPrefix(cfg, times, more, n - 1);
    }
  }

  /** A key's deque depends on that key's arrivals alone, however the run interleaves. */
  lemma {:induction false} KeysAreIndependent(cfg: Config, run: seq<Arrival>, key: string)
    ensures BucketOf(Hits(cfg, run), key) == Bucket(cfg, TimesOf(run, key), |TimesOf(run, key)|)
  {
    if run != [] {
      KeysAreIndependent(cfg, run[..|run| - 1], key);
      var earlier := TimesOf(run[..|run| - 1], key);
      var a := run[|run| - 1];
      if a.key == key {
        BucketOfPrefix(cfg, earlier, [a.time], |earlier|);
      } else {
        assert earlier + [] == earlier;
      }
    }
  }
}
