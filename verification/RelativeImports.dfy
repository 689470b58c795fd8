/** Turning a relative import into an absolute dotted module name.

    The code drops package levels by cutting strings at dots. It is compared here with
    the rule of PEP 328 and section 5.7 of the Python Language Reference, stated on
    lists of components. */
module RelativeImports {
  import opened DottedNames

  /** `s.lstrip(".")` */
  function StripDots(s: string): (t: string)
    ensures |t| <= |s| && (t != "" ==> t[0] != '.')
    ensures s != "" && s[0] == '.' ==> |t| < |s|
  {
    if s != "" && s[0] == '.' then StripDots(s[1..]) else s
  }

  function Dots(level: nat): (s: string)
    ensures |s| == level && (level > 0 ==> s[0] == '.')
  {
    if level == 0 then "" else "." + Dots(level - 1)
  }

  /** `base` cut at its last dot `n` times. */
  function Ancestor(base: string, n: nat): string {
    if n == 0 then base else Parent(Ancestor(base, n - 1))
  }

  /** The name the dots count from: a package itself, a plain module's parent. */
  function Start(currentModule: string, isPackage: bool): string {
    if isPackage then currentModule else Parent(currentModule)
  }

  function Attach(base: string, text: string): string {
    if base == "" then text else if text == "" then base else base + "." + text
  }

  /** What the resolver answers, for every text. */
  function Resolved(moduleRef: string, currentModule: string, isPackage: bool): string {
    if moduleRef == "" || moduleRef[0] != '.' then moduleRef
    else
      var stripped := StripDots(moduleRef);
      Attach(Ancestor(Start(currentModule, isPackage), |moduleRef| - |stripped| - 1), stripped)
  }

  method ResolveRelativeModule(moduleRef: string, currentModule: string, isPackage: bool) returns (r: string)
    ensures r == Resolved(moduleRef, currentModule, isPackage)
  {
    if moduleRef == "" || moduleRef[0] != '.' {
      return moduleRef;
    }
    var stripped := StripDots(moduleRef);
    var level := |moduleRef| - |stripped|;
    var start := if isPackage then currentModule else Parent(currentModule);
    var base := start;
    var i := 0;
    while i < level - 1
      invariant 0 <= i <= level - 1
      invariant base == Ancestor(start, i)
    {
      base := Parent(base);
      i := i + 1;
    }
    if base == "" {
      return stripped;
    }
    r := if stripped == "" then base else base + "." + stripped;
  }

  // ---------------------------------------------------------------------------
  // The language rule, on components.
  // ---------------------------------------------------------------------------

  datatype Absolute = Module(parts: seq<string>) | BeyondTopLevel

  /** The package a module lives in: a package is its own, a plain module's is its parent. */
  function PackageOf(current: seq<string>, isPackage: bool): seq<string> {
    if isPackage || current == [] then current else current[..|current| - 1]
  }

  /** One dot names the current package and each further dot its parent; leaving the
      outermost package is an error. */
  function LanguageRule(package: seq<string>, level: nat, name: seq<string>): Absolute
    requires level >= 1
  {
    if level > |package| then BeyondTopLevel
    else Module(package[..|package| - (level - 1)] + name)
  }

  lemma {:induction false} StripOfDots(level: nat, s: string)
    requires s == "" || s[0] != '.'
    ensures StripDots(Dots(level) + s) == s
  {
    if level > 0 {
      assert (Dots(level) + s)[1..] == Dots(level - 1) + s;
      StripOfDots(level - 1, s);
    } else {
      assert Dots(0) + s == s;
    }
  }

  lemma {:induction false} AncestorDropsComponents(parts: seq<string>, n: nat)
    requires Components(parts)
    ensures Ancestor(Join(parts), n) == Join(if n <= |parts| then parts[..|parts| - n] else [])
  {
    if n == 0 {
      assert parts[..|parts|] == parts;
    } else {
      AncestorDropsComponents(parts, n - 1);
      if n <= |parts| {
        var kept := parts[..|parts| - (n - 1)];
        ParentDropsAComponent(kept);
        assert kept[..|kept| - 1] == parts[..|parts| - n];
      } else if n - 1 == |parts| {
        assert parts[..0] == [];
      }
    }
  }

  lemma {:induction false} JoinAppend(base: seq<string>, name: seq<string>)
    requires Components(base) && Components(name) && base != [] && name != []
    ensures Join(base + name) == Join(base) + "." + Join(name)
  {
    var n := |name| - 1;
    assert (base + name)[..|base| + n] == base + name[..n];
    if n == 0 {
      assert base + name[..0] == base;
    } else {
      JoinAppend(base, name[..n]);
    }
  }

  lemma PackageText(current: seq<string>, isPackage: bool)
    requires Components(current)
    ensures Components(PackageOf(current, isPackage))
    ensures Start(Join(current), isPackage) == Join(PackageOf(current, isPackage))
  {
    if !isPackage && current != [] {
      ParentDropsAComponent(current);
    }
  }

  lemma ResolvedFromBase(level: nat, text: string, current: string, isPackage: bool)
    requires level >= 1 && (text == "" || text[0] != '.')
    ensures Resolved(Dots(level) + text, current, isPackage)
            == Attach(Ancestor(Start(current, isPackage), level - 1), text)
  {
    var ref := Dots(level) + text;
    StripOfDots(level, text);
    assert ref != "" && ref[0] == '.' && StripDots(ref) == text && |ref| - |text| == level;
  }

  lemma AttachJoins(base: seq<string>, name: seq<string>)
    requires Components(base) && Components(name)
    ensures Attach(Join(base), Join(name)) == if base == [] then Join(name) else Join(base + name)
  {
    JoinEmptyOnlyForNone(base);
    JoinEmptyOnlyForNone(name);
    if name == [] {
      assert base + name == base;
    } else if base != [] {
      JoinAppend(base, name);
    }
  }

  /** The code's answer for every level, every well-formed name and both module kinds: the
      language rule's module while one exists, and the bare text after the dots otherwise. */
  lemma ResolvesByTheLanguageRule(current: seq<string>, isPackage: bool, level: nat, name: seq<string>)
    requires Components(current) && Components(name) && level >= 1
    ensures Resolved(Dots(level) + Join(name), Join(current), isPackage)
            == match LanguageRule(PackageOf(current, isPackage), level, name)
               case Module(parts) => Join(parts)
               case BeyondTopLevel => Join(name)
  {
    hide Join, Dots, Resolved, Start, Ancestor, Attach, PackageOf;
    var package := PackageOf(current, isPackage);
    PackageText(current, isPackage);
    AncestorDropsComponents(package, level - 1);
    FirstCharacter(name);
    ResolvedFromBase(level, Join(name), Join(current), isPackage);
    if level - 1 <= |package| {
      var base := package[..|package| - (level - 1)];
      AttachJoins(base, name);
      assert level > |package| <==> base == [];
    } else {
      AttachJoins([], name);
    }
  }

  lemma {:induction false} FirstCharacter(name: seq<string>)
    requires Components(name)
    ensures Join(name) == "" || Join(name)[0] != '.'
  {
    if |name| == 1 {
      assert name[0][0] in name[0];
    } else if name != [] {
      FirstCharacter(name[..|name| - 1]);
    }
  }

  /** The documentation promises "" for an import that leaves the repository root. The code
      keeps that promise exactly when nothing follows the dots. */
  lemma EmptyAboveRootExactlyForBareDots(current: seq<string>, isPackage: bool, level: nat, name: seq<string>)
    requires Components(current) && Components(name) && level >= 1
    requires level > |PackageOf(current, isPackage)|
    ensures Resolved(Dots(level) + Join(name), Join(current), isPackage) == "" <==> name == []
  {
    ResolvesByTheLanguageRule(current, isPackage, level, name);
    JoinEmptyOnlyForNone(name);
  }

  /** A witness: `from ..x import y` inside the plain module `a.b` resolves to `x`. */
  lemma AboveRootIsNotAlwaysEmpty()
    ensures Resolved("..x", "a.b", false) == "x"
  {
    ResolvesByTheLanguageRule(["a", "b"], false, 2, ["x"]);
    assert Join(["a", "b"]) == "a.b";
    assert Dots(2) == ".." by { assert Dots(1) == "."; }
  }
}
