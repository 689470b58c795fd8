/** A `from` statement as written, the record the parser keeps of it, and when the bindings read
    back from that record are those the statement asks for. */
module FromImports {
  import opened Options
  import opened DottedNames
  import opened RelativeImports
  import opened ImportBindings

  /** One item of the list: `name`, or `name as asname`. */
  datatype Item = Item(name: string, asname: Option<string>)

  /** The name the item binds in the importing module. */
  function Local(item: Item): string {
    if item.asname.Some? then item.asname.value else item.name
  }

  predicate Identifier(s: string) {
    s != "" && '.' !in s
  }

  /** What the grammar allows: at least one item, and identifiers only. */
  predicate Grammatical(items: seq<Item>) {
    items != [] && forall item :: item in items ==> Identifier(item.name) && Identifier(Local(item))
  }

  // ---------------------------------------------------------------------------
  // The record.
  // ---------------------------------------------------------------------------

  /** `_from_module`: the dots of a relative import stand before the module. */
  function FromModule(source: Option<string>, level: nat): Option<string> {
    if level > 0 then Some(Dots(level) + Or(source, "")) else source
  }

  function Asnames(items: seq<Item>): set<string> {
    set item | item in items && item.asname.Some? :: item.asname.value
  }

  /** The one alias the record has room for: that of a single item, or the only one given. */
  ghost predicate IsKeptAlias(items: seq<Item>, alias: Option<string>) {
    if |items| == 1 then alias == items[0].asname
    else if |Asnames(items)| == 1 then alias.Some? && Asnames(items) == {alias.value}
    else alias.None?
  }

  ghost predicate IsRecordOf(imp: ParsedImport, source: Option<string>, level: nat, items: seq<Item>) {
    && imp.source == FromModule(source, level)
    && |imp.names| == |items| && (forall i :: 0 <= i < |items| ==> imp.names[i] == items[i].name)
    && IsKeptAlias(items, imp.alias)
  }

  lemma TheOnlyMember(s: set<string>, x: string)
    requires |s| == 1 && x in s
    ensures s == {x}
  {
    assert |s - {x}| == 0;
  }

  method CollectFrom(source: Option<string>, level: nat, items: seq<Item>) returns (imp: ParsedImport)
    ensures IsRecordOf(imp, source, level, items)
  {
    var names: seq<string>, aliases: seq<Option<string>> := [], [];
    for k := 0 to |items|
      invariant |names| == |aliases| == k
      invariant forall i :: 0 <= i < k ==> names[i] == items[i].name && aliases[i] == items[i].asname
    {
      names := names + [items[k].name];
      aliases := aliases + [items[k].asname];
    }
    var unique := set alias | alias in aliases && alias.Some? :: alias.value;
    assert unique == Asnames(items) by {
      forall a | a in Asnames(items) ensures a in unique {
        var i :| 0 <= i < |items| && items[i].asname == Some(a);
        assert aliases[i] in aliases;
      }
    }
    var alias: Option<string> := None;
    if |names| == 1 {
      alias := aliases[0];
    } else if |unique| == 1 {
      var a :| a in unique;
      TheOnlyMember(unique, a);
      alias := Some(a);
    }
    imp := ParsedImport(FromModule(source, level), names, alias);
  }

  // ---------------------------------------------------------------------------
  // What it binds.
  // ---------------------------------------------------------------------------

  /** Every item's local name is bound to the item's name under the resolved module. */
  ghost predicate BindsAsWritten(items: seq<Item>, target: string, b: Bindings) {
    forall i :: 0 <= i < |items| ==> Local(items[i]) in b && b[Local(items[i])] == Qualify(target, items[i].name)
  }

  /** `from x import x`, renamed or not. */
  predicate ImportsItsNamesake(source: Option<string>, level: nat, items: seq<Item>) {
    level == 0 && |items| == 1 && source == Some(items[0].name)
  }

  /** All items say the same. */
  predicate AllAlike(items: seq<Item>) {
    forall i :: 0 <= i < |items| ==> items[i].name == items[0].name && Local(items[i]) == Local(items[0])
  }

  /** No item changes its name, and there is no alias to keep: `x as x` counts as one. */
  predicate NoneRenamed(items: seq<Item>) {
    |Asnames(items)| != 1 && forall i :: 0 <= i < |items| ==> Local(items[i]) == items[i].name
  }

  lemma PlainExactlyForNamesakes(imp: ParsedImport, source: Option<string>, level: nat, items: seq<Item>)
    requires IsRecordOf(imp, source, level, items) && Grammatical(items)
    ensures IsPlain(imp) <==> ImportsItsNamesake(source, level, items)
  {
    assert items[0] in items;
    if ImportsItsNamesake(source, level, items) {
      assert imp.names == [items[0].name];
      assert items[0].name[0] in items[0].name;
    }
  }

  lemma KeptAliasIsAnAsname(items: seq<Item>, alias: Option<string>)
    requires IsKeptAlias(items, alias) && Grammatical(items)
    ensures alias.Some? ==> Or(alias, "") == alias.value && exists i :: 0 <= i < |items| && items[i].asname == alias
    ensures alias.None? ==> (|items| == 1 && items[0].asname.None?) || (|items| > 1 && |Asnames(items)| != 1)
    ensures alias.Some? && |items| > 1 ==> |Asnames(items)| == 1
  {
    if alias.Some? && |items| > 1 {
      assert alias.value in Asnames(items);
    }
    if alias.Some? {
      var i :| 0 <= i < |items| && items[i].asname == alias;
      assert items[i] in items;
    }
  }

  /** The parser's record binds every name of a `from` statement as written exactly when all its
      items say the same or none is renamed, and it is not `from x import x`: the record has room
      for one alias, and one name that is its own module is read as a plain `import`. */
  lemma BindsAsWrittenExactly(
    imp: ParsedImport, source: Option<string>, level: nat, items: seq<Item>, current: string, isPackage: bool)
    requires IsRecordOf(imp, source, level, items) && Grammatical(items)
    ensures BindsAsWritten(items, Resolved(Or(imp.source, ""), current, isPackage), BindingsOf([imp], current, isPackage))
            <==> !ImportsItsNamesake(source, level, items) && (AllAlike(items) || NoneRenamed(items))
  {
    PlainExactlyForNamesakes(imp, source, level, items);
    KeptAliasIsAnAsname(items, imp.alias);
    OneStatement(imp, current, isPackage);
    assert items[0] in items;
    if IsPlain(imp) {
      PlainBindsThePath(imp, current, isPackage);
    } else if imp.alias.None? {
      WithoutAnAlias(imp, source, level, items, current, isPackage);
    } else {
      WithAnAlias(imp, source, level, items, current, isPackage);
    }
  }

  lemma WithoutAnAlias(
    imp: ParsedImport, source: Option<string>, level: nat, items: seq<Item>, current: string, isPackage: bool)
    requires IsRecordOf(imp, source, level, items) && Grammatical(items) && !IsPlain(imp) && imp.alias.None?
    ensures var target := Resolved(Or(imp.source, ""), current, isPackage);
            BindsAsWritten(items, target, FirstWins(Offers(imp, current, isPackage)))
            <==> AllAlike(items) || NoneRenamed(items)
  {
    EveryNameKeepsItsTarget(imp, current, isPackage);
    KeptAliasIsAnAsname(items, imp.alias);
    var target := Resolved(Or(imp.source, ""), current, isPackage);
    forall i | 0 <= i < |items|
      ensures Local(items[i]) == items[i].name ==> Local(items[i]) in imp.names
      ensures Qualify(target, Local(items[i])) == Qualify(target, items[i].name) ==> Local(items[i]) == items[i].name
    {
      assert imp.names[i] == items[i].name;
      QualifyInjective(target, Local(items[i]), items[i].name);
    }
    if AllAlike(items) && |items| > 1 && items[0].asname.Some? {
      AlikeAsnames(items);
    }
  }

  /** Items that are all alike and renamed differently from their name share one asname. */
  lemma AlikeAsnames(items: seq<Item>)
    requires AllAlike(items) && items != [] && items[0].asname.Some?
    ensures Asnames(items) == {Local(items[0])} && |Asnames(items)| == 1
  {
    assert items[0] in items;
  }

  lemma WithAnAlias(
    imp: ParsedImport, source: Option<string>, level: nat, items: seq<Item>, current: string, isPackage: bool)
    requires IsRecordOf(imp, source, level, items) && Grammatical(items) && !IsPlain(imp) && imp.alias.Some?
    ensures var target := Resolved(Or(imp.source, ""), current, isPackage);
            BindsAsWritten(items, target, FirstWins(Offers(imp, current, isPackage)))
            <==> AllAlike(items) || NoneRenamed(items)
  {
    KeptAliasIsAnAsname(items, imp.alias);
    OneKeyBindsOnce(Offers(imp, current, isPackage), imp.alias.value);
    var target := Resolved(Or(imp.source, ""), current, isPackage);
    assert items[0].name == imp.names[0] && Offers(imp, current, isPackage)[0].1 == Qualify(target, items[0].name);
    forall i | 0 <= i < |items|
      ensures Qualify(target, items[0].name) == Qualify(target, items[i].name) ==> items[0].name == items[i].name
    {
      QualifyInjective(target, items[0].name, items[i].name);
    }
    hide Qualify, Resolved, Offers, FirstWins, Asnames, IsRecordOf, Grammatical;
    assert NoneRenamed(items) ==> |items| == 1;
  }

  // ---------------------------------------------------------------------------
  // One input for each way to fail.
  // ---------------------------------------------------------------------------

  /** `from x import x`, such as `from datetime import datetime`, binds the module and not the
      class in it. */
  lemma NamesakeBindsTheModule(x: string)
    requires Identifier(x)
    ensures var imp := ParsedImport(Some(x), [x], None);
            IsRecordOf(imp, Some(x), 0, [Item(x, None)]) && BindingsOf([imp], "m", false) == map[x := x]
  {
    var imp := ParsedImport(Some(x), [x], None);
    assert x[0] in x;
    HeadOfJoined(x, "");
    OneStatement(imp, "m", false);
    OneKeyBindsOnce(Offers(imp, "m", false), x);
  }

  /** `from m import a as x, b` binds `x` and not `b`. */
  lemma OneAliasHidesTheOtherName()
    ensures var imp := ParsedImport(Some("m"), ["a", "b"], Some("x"));
            IsRecordOf(imp, Some("m"), 0, [Item("a", Some("x")), Item("b", None)])
            && BindingsOf([imp], "n", false) == map["x" := "m.a"]
  {
    var imp := ParsedImport(Some("m"), ["a", "b"], Some("x"));
    var items := [Item("a", Some("x")), Item("b", None)];
    assert items[0] in items && Asnames(items) == {"x"};
    OneStatement(imp, "n", false);
    assert Resolved("m", "n", false) == "m" && Qualify("m", "a") == "m.a";
    assert imp.names[0] == "a" && Offers(imp, "n", false)[0] == ("x", "m.a");
    OneKeyBindsOnce(Offers(imp, "n", false), "x");
  }

  /** `from m import a as x, b as y` binds `a` and `b`, and neither `x` nor `y`. */
  lemma TwoAliasesAreDropped(a: string, b: string, x: string, y: string)
    requires x != y
    ensures var imp := ParsedImport(Some("m"), [a, b], None);
            IsRecordOf(imp, Some("m"), 0, [Item(a, Some(x)), Item(b, Some(y))])
            && BindingsOf([imp], "n", false).Keys == {a, b}
  {
    var imp := ParsedImport(Some("m"), [a, b], None);
    var items := [Item(a, Some(x)), Item(b, Some(y))];
    assert items[0] in items && items[1] in items && Asnames(items) == {x, y};
    OneStatement(imp, "n", false);
    EveryNameKeepsItsTarget(imp, "n", false);
  }
}
