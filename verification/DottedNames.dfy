/** Dotted Python names as strings, with the string operations the indexer applies to
    them, and their reading as lists of components. */
module DottedNames {

  /** The part of `s` before its last dot, or "" when it has none: `s.rpartition(".")[0]`. */
  function Parent(s: string): (p: string)
    ensures p <= s
    ensures s != "" ==> |p| < |s|
  {
    if s == "" then ""
    else if s[|s| - 1] == '.' then s[..|s| - 1]
    else Parent(s[..|s| - 1])
  }

  /** The part of `s` before its first dot, or all of `s`: `s.partition(".")[0]`. */
  function Head(s: string): (h: string)
    ensures h <= s && '.' !in h
    ensures |h| < |s| ==> s[|h|] == '.'
  {
    if s == "" || s[0] == '.' then "" else [s[0]] + Head(s[1..])
  }

  predicate HasDot(s: string) {
    |Head(s)| < |s|
  }

  /** The part of `s` after its first dot, or "" when it has none: `s.partition(".")[2]`. */
  function Rest(s: string): string {
    if HasDot(s) then s[|Head(s)| + 1..] else ""
  }

  lemma {:induction false} HeadOfJoined(h: string, rest: string)
    requires '.' !in h
    ensures Head(h + "." + rest) == h && HasDot(h + "." + rest) && Rest(h + "." + rest) == rest
    ensures Head(h) == h && !HasDot(h)
  {
    if h != "" {
      assert h[0] in h && h == [h[0]] + h[1..];
      HeadOfJoined(h[1..], rest);
      assert (h + "." + rest)[1..] == h[1..] + "." + rest;
    }
  }

  /** `p` is `s` itself or the text of `s` before one of its dots. */
  predicate DottedPrefix(p: string, s: string) {
    p == s || (p < s && s[|p|] == '.')
  }

  /** The proper dotted prefixes of `s` are the dotted prefixes of its parent, except that
      a name without a dot has the parent "" and no proper dotted prefix. */
  lemma {:induction false} ParentIsNextPrefix(s: string)
    ensures '.' in s ==> DottedPrefix(Parent(s), s)
    ensures '.' !in s ==> Parent(s) == ""
    ensures forall p :: DottedPrefix(p, s) && p != s ==> DottedPrefix(p, Parent(s))
    ensures forall p :: p != "" && DottedPrefix(p, Parent(s)) ==> DottedPrefix(p, s)
  {
    if s != "" && s[|s| - 1] != '.' {
      var t := s[..|s| - 1];
      ParentIsNextPrefix(t);
      assert forall p :: DottedPrefix(p, s) && p != s ==> DottedPrefix(p, t);
      assert forall p :: DottedPrefix(p, t) && p != t ==> DottedPrefix(p, s);
      if '.' in s {
        assert '.' in t;
      }
    } else if s != "" {
      var t := s[..|s| - 1];
      assert Parent(s) == t && s == t + ".";
    }
  }

  // ---------------------------------------------------------------------------
  // Component lists.
  // ---------------------------------------------------------------------------

  /** A list of name components: none empty, none with a dot. */
  predicate Components(parts: seq<string>) {
    forall i :: 0 <= i < |parts| ==> parts[i] != "" && '.' !in parts[i]
  }

  function Join(parts: seq<string>): string {
    if parts == [] then ""
    else if |parts| == 1 then parts[0]
    else Join(parts[..|parts| - 1]) + "." + parts[|parts| - 1]
  }

  lemma {:induction false} ParentOfTail(prefix: string, part: string)
    requires '.' !in part
    ensures Parent(prefix + "." + part) == prefix
    ensures Parent(part) == ""
  {
    if part == "" {
      assert (prefix + "." + part)[..|prefix|] == prefix;
    } else {
      var n := |part| - 1;
      assert part[n] in part;
      assert (prefix + "." + part)[..|prefix| + 1 + n] == prefix + "." + part[..n];
      ParentOfTail(prefix, part[..n]);
    }
  }

  /** Cutting at the last dot drops the last component. */
  lemma ParentDropsAComponent(parts: seq<string>)
    requires Components(parts) && parts != []
    ensures Parent(Join(parts)) == Join(parts[..|parts| - 1])
  {
    ParentOfTail(Join(parts[..|parts| - 1]), parts[|parts| - 1]);
  }

  lemma {:induction false} JoinEmptyOnlyForNone(parts: seq<string>)
    requires Components(parts)
    ensures Join(parts) == "" <==> parts == []
  {
  }
}
