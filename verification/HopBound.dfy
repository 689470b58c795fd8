/** Why following re-exports is cut after a fixed number of hops. */
module HopBound {
  import opened Options
  import opened DottedNames
  import opened RewriteOrbits
  import opened NameResolution

  function Tail(n: nat): (s: string)
    ensures |s| == 2 * n
    ensures n > 0 ==> s[0] == '.'
  {
    if n == 0 then "" else ".y" + Tail(n - 1)
  }

  /** A package `a` whose `x` is bound below itself. */
  function GrowingTables(qns: set<string>): Tables {
    Tables(qns, map[], {"a"}, {}, map["a" := map["x" := "a.x.y"]])
  }

  lemma OwnerOfGrown(n: nat)
    ensures NearestIn("a.x" + Tail(n), {"a"}) == Some("a")
  {
    var current := "a.x" + Tail(n);
    assert "a" in {"a"} && DottedPrefix("a", current);
  }

  lemma RemainderOfGrown(n: nat)
    ensures var remainder := ("a.x" + Tail(n))[2..];
            Head(remainder) == "x" && (HasDot(remainder) <==> n > 0) && (n > 0 ==> "." + Rest(remainder) == Tail(n))
  {
    hide Head, Rest;
    var remainder := ("a.x" + Tail(n))[2..];
    assert remainder == "x" + Tail(n);
    if n == 0 {
      HeadOfJoined("x", "");
      assert "x" + Tail(0) == "x";
    } else {
      var rest := Tail(n)[1..];
      assert Tail(n) == "." + rest && remainder == "x" + "." + rest;
      HeadOfJoined("x", rest);
    }
  }

  lemma TextOfGrown(n: nat, rest: string)
    ensures n == 0 ==> "a.x.y" == "a.x" + Tail(n + 1)
    ensures n > 0 && "." + rest == Tail(n) ==> "a.x.y" + "." + rest == "a.x" + Tail(n + 1)
  {
    assert Tail(n + 1) == ".y" + Tail(n);
  }

  lemma GrowingStep(qns: set<string>, n: nat)
    ensures Rewrite(GrowingTables(qns), "a.x" + Tail(n)) == Some("a.x" + Tail(n + 1))
  {
    var t, current := GrowingTables(qns), "a.x" + Tail(n);
    assert Lookup(t.reexports, "a", "x") == "a.x.y";
    assert NearestIn(current, t.modules) == Some("a") by {
      OwnerOfGrown(n);
    }
    assert current != "a";
    RemainderOfGrown(n);
    TextOfGrown(n, Rest(current[2..]));
  }

  /** The rewriting can go on for ever with names that keep growing, so no repetition check
      alone would stop it. */
  lemma {:induction false} RewritingCanGrowForever(qns: set<string>, n: nat)
    ensures Orbit(Hop(GrowingTables(qns)), "a.x", n) == Some("a.x" + Tail(n))
  {
    hide Rewrite;
    if n == 0 {
      assert "a.x" + Tail(0) == "a.x";
    } else {
      RewritingCanGrowForever(qns, n - 1);
      GrowingStep(qns, n - 1);
    }
  }

  /** And the bound is felt: a name indexed five hops away is not found. */
  lemma FifthHopIsNotTaken()
    ensures var name := "a.x" + Tail(5);
            var t := GrowingTables({name});
            HitAt(Hop(t), t.qns, "a.x", 5) && Follow(t, "a.x") == None
  {
    var name := "a.x" + Tail(5);
    var t := GrowingTables({name});
    RewritingCanGrowForever(t.qns, 5);
    forall n | 0 <= n < 5 ensures !HitAt(Hop(t), t.qns, "a.x", n) {
      RewritingCanGrowForever(t.qns, n);
      assert |"a.x" + Tail(n)| != |name|;
    }
  }
}
