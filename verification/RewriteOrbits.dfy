/** Bounded search along the orbit of a rewriting step, with a guard against repetition.
    Nothing here depends on what is rewritten. */
module RewriteOrbits {
  import opened Options

  /** The value after `n` steps, while there is one. */
  function Orbit<T>(step: T -> Option<T>, start: T, n: nat): Option<T> {
    if n == 0 then Some(start)
    else
      var before := Orbit(step, start, n - 1);
      if before.None? then None else step(before.value)
  }

  predicate HitAt<T(==)>(step: T -> Option<T>, known: set<T>, start: T, n: nat) {
    Orbit(step, start, n).Some? && Orbit(step, start, n).value in known
  }

  /** The first known value among the orbit's elements `from`, `from + 1`, .. below `limit`. */
  function FirstHit<T(==)>(step: T -> Option<T>, known: set<T>, start: T, from: nat, limit: nat): Option<T>
    decreases limit - from
  {
    if from >= limit then None
    else if HitAt(step, known, start, from) then Orbit(step, start, from)
    else FirstHit(step, known, start, from + 1, limit)
  }

  lemma {:induction false} FirstHitIsFirst<T>(step: T -> Option<T>, known: set<T>, start: T, from: nat, limit: nat)
    ensures var r := FirstHit(step, known, start, from, limit);
            r.Some? ==> exists n :: from <= n < limit && HitAt(step, known, start, n) && Orbit(step, start, n) == r
                                    && forall m :: from <= m < n ==> !HitAt(step, known, start, m)
    ensures var r := FirstHit(step, known, start, from, limit);
            r.None? ==> forall n :: from <= n < limit ==> !HitAt(step, known, start, n)
    decreases limit - from
  {
    if from < limit && !HitAt(step, known, start, from) {
      FirstHitIsFirst(step, known, start, from + 1, limit);
    }
  }

  /** The first answer from index `k` on. */
  function FirstSome<T>(answers: seq<Option<T>>, k: nat): (r: Option<T>)
    requires k <= |answers|
    ensures r.Some? ==> exists i :: k <= i < |answers| && answers[i] == r && forall j :: k <= j < i ==> answers[j].None?
    ensures r.None? ==> forall i :: k <= i < |answers| ==> answers[i].None?
    decreases |answers| - k
  {
    if k == |answers| then None
    else if answers[k].Some? then answers[k]
    else FirstSome(answers, k + 1)
  }

  lemma {:induction false} OrbitEnds<T>(step: T -> Option<T>, start: T, i: nat, n: nat)
    requires Orbit(step, start, i).None? && i <= n
    ensures Orbit(step, start, n).None?
  {
    if i < n {
      OrbitEnds(step, start, i, n - 1);
    }
  }

  /** Once a value repeats, every later one is among those already seen. */
  lemma {:induction false} OrbitCycles<T>(step: T -> Option<T>, start: T, j: nat, i: nat, n: nat)
    requires j < i <= n && Orbit(step, start, j) == Orbit(step, start, i)
    ensures exists k :: j <= k < i && Orbit(step, start, k) == Orbit(step, start, n)
  {
    if n > i {
      OrbitCycles(step, start, j, i, n - 1);
      var k :| j <= k < i && Orbit(step, start, k) == Orbit(step, start, n - 1);
      assert Orbit(step, start, k + 1) == Orbit(step, start, n);
      assert k + 1 < i || Orbit(step, start, j) == Orbit(step, start, n);
    } else {
      assert Orbit(step, start, j) == Orbit(step, start, n);
    }
  }

  /** The early exit on a repeated value never changes the answer: nothing after it is known,
      however far the rewriting were to go on. */
  lemma RepetitionIsHopeless<T>(step: T -> Option<T>, known: set<T>, start: T, j: nat, i: nat, n: nat)
    requires j < i && Orbit(step, start, j) == Orbit(step, start, i)
    requires forall m :: 0 <= m < i ==> !HitAt(step, known, start, m)
    ensures !HitAt(step, known, start, n)
  {
    if n >= i {
      OrbitCycles(step, start, j, i, n);
      var k :| j <= k < i && Orbit(step, start, k) == Orbit(step, start, n);
      assert !HitAt(step, known, start, k);
    }
  }

  lemma {:induction false} SkipMisses<T>(step: T -> Option<T>, known: set<T>, start: T, i: nat, limit: nat)
    requires i <= limit && forall m :: 0 <= m < i ==> !HitAt(step, known, start, m)
    ensures FirstHit(step, known, start, 0, limit) == FirstHit(step, known, start, i, limit)
  {
    if i > 0 {
      SkipMisses(step, known, start, i - 1, limit);
    }
  }

  lemma {:induction false} SameOrbit<T(!new)>(f: T -> Option<T>, g: T -> Option<T>, start: T, n: nat)
    requires forall x :: f(x) == g(x)
    ensures Orbit(f, start, n) == Orbit(g, start, n)
  {
    if n > 0 {
      SameOrbit(f, g, start, n - 1);
    }
  }

  /** Steps that agree everywhere give the same search. */
  lemma {:induction false} SameSearch<T(!new)>(f: T -> Option<T>, g: T -> Option<T>, known: set<T>, start: T, from: nat, limit: nat)
    requires forall x :: f(x) == g(x)
    ensures FirstHit(f, known, start, from, limit) == FirstHit(g, known, start, from, limit)
    decreases limit - from
  {
    if from < limit {
      SameOrbit(f, g, start, from);
      SameSearch(f, g, known, start, from + 1, limit);
    }
  }

  /** The state of the search before hop `i`: every earlier value missed, and `visited` holds
      earlier values only. */
  ghost predicate Searched<T(!new)>(step: T -> Option<T>, known: set<T>, start: T, i: nat, current: T, visited: set<T>) {
    && Orbit(step, start, i) == Some(current)
    && (forall m :: 0 <= m < i ==> !HitAt(step, known, start, m))
    && (forall v :: v in visited ==> exists m :: 0 <= m < i && Orbit(step, start, m) == Some(v))
  }

  lemma SearchAdvances<T(!new)>(step: T -> Option<T>, known: set<T>, start: T, i: nat, current: T, visited: set<T>, next: Option<T>)
    requires Searched(step, known, start, i, current, visited) && current !in known
    requires step(current) == next
    ensures next.Some? ==> Searched(step, known, start, i + 1, next.value, visited + {current})
    ensures Orbit(step, start, i + 1) == next
  {
    forall v | v in visited + {current} ensures exists m :: 0 <= m < i + 1 && Orbit(step, start, m) == Some(v) {
      if v in visited {
        var m :| 0 <= m < i && Orbit(step, start, m) == Some(v);
      } else {
        assert Orbit(step, start, i) == Some(v);
      }
    }
  }

  lemma SearchFinds<T(!new)>(step: T -> Option<T>, known: set<T>, start: T, i: nat, current: T, visited: set<T>, limit: nat)
    requires Searched(step, known, start, i, current, visited) && i < limit && current in known
    ensures FirstHit(step, known, start, 0, limit) == Some(current)
  {
    SkipMisses(step, known, start, i, limit);
  }

  lemma SearchFails<T(!new)>(step: T -> Option<T>, known: set<T>, start: T, i: nat, current: T, visited: set<T>, limit: nat)
    requires Searched(step, known, start, i, current, visited) && i < limit && current !in known
    requires current in visited || step(current).None?
    ensures FirstHit(step, known, start, 0, limit) == None
  {
    FirstHitIsFirst(step, known, start, 0, limit);
    forall n | i < n ensures !HitAt(step, known, start, n) {
      if step(current).None? {
        assert Orbit(step, start, i + 1).None?;
        OrbitEnds(step, start, i + 1, n);
      } else {
        var j :| 0 <= j < i && Orbit(step, start, j) == Some(current);
        RepetitionIsHopeless(step, known, start, j, i, n);
      }
    }
  }

  lemma SearchExhausted<T(!new)>(step: T -> Option<T>, known: set<T>, start: T, current: T, visited: set<T>, limit: nat)
    requires Searched(step, known, start, limit, current, visited)
    ensures FirstHit(step, known, start, 0, limit) == None
  {
    SkipMisses(step, known, start, limit, limit);
  }
}
