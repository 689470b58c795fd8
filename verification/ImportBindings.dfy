/** What a module's import statements bind: local name to absolute dotted target.

    The indexer computes the table from a parse and, for modules outside the batch,
    rebuilds it from `:Import` nodes. Both give the same table. */
module ImportBindings {
  import opened Options
  import opened DottedNames
  import opened RelativeImports

  datatype ParsedImport = ParsedImport(source: Option<string>, names: seq<string>, alias: Option<string>)

  type Bindings = map<string, string>

  /** `value or fallback`: absent and empty text both fall through. */
  function Or(value: Option<string>, fallback: string): string {
    if value.Some? && value.value != "" then value.value else fallback
  }

  function Qualify(target: string, name: string): string {
    if target == "" then name else target + "." + name
  }

  predicate IsRelative(raw: string) {
    raw != "" && raw[0] == '.'
  }

  /** `import a.b`: the statement names the module itself. */
  predicate IsPlain(imp: ParsedImport) {
    var raw := Or(imp.source, "");
    !IsRelative(raw) && imp.names == [raw]
  }

  /** The bindings one statement offers, in order. */
  function Offers(imp: ParsedImport, current: string, isPackage: bool): seq<(string, string)> {
    var raw := Or(imp.source, "");
    if IsPlain(imp) then [(Or(imp.alias, raw), raw), (Head(raw), Head(raw))]
    else
      var target := Resolved(raw, current, isPackage);
      seq(|imp.names|, i requires 0 <= i < |imp.names| => (Or(imp.alias, imp.names[i]), Qualify(target, imp.names[i])))
  }

  function AllOffers(imports: seq<ParsedImport>, current: string, isPackage: bool): seq<(string, string)> {
    if imports == [] then []
    else AllOffers(imports[..|imports| - 1], current, isPackage) + Offers(imports[|imports| - 1], current, isPackage)
  }

  function SetDefault(b: Bindings, offer: (string, string)): Bindings {
    if offer.0 in b then b else b[offer.0 := offer.1]
  }

  function FirstWins(offers: seq<(string, string)>): Bindings {
    if offers == [] then map[] else SetDefault(FirstWins(offers[..|offers| - 1]), offers[|offers| - 1])
  }

  /** No offer before the `i`-th is under its name. */
  predicate IsEarliest(offers: seq<(string, string)>, i: nat) {
    i < |offers| && forall j :: 0 <= j < i ==> offers[j].0 != offers[i].0
  }

  lemma FirstWinsStep(offers: seq<(string, string)>)
    ensures offers == [] ==> FirstWins(offers) == map[]
    ensures offers != [] ==> FirstWins(offers) == SetDefault(FirstWins(offers[..|offers| - 1]), offers[|offers| - 1])
  {
  }

  predicate IsOffered(offers: seq<(string, string)>, name: string) {
    exists i :: 0 <= i < |offers| && offers[i].0 == name
  }

  lemma OfferedInFront(offers: seq<(string, string)>, name: string)
    requires offers != []
    ensures IsOffered(offers, name) <==> IsOffered(offers[..|offers| - 1], name) || offers[|offers| - 1].0 == name
  {
    var n := |offers| - 1;
    if i :| 0 <= i < |offers| && offers[i].0 == name && i != n {
      assert offers[..n][i] == offers[i];
    }
  }

  /** A table binds a name to its earliest offer. */
  ghost predicate BindsEarliest(offers: seq<(string, string)>, b: Bindings, name: string) {
    && (name in b <==> IsOffered(offers, name))
    && forall i: nat :: IsEarliest(offers, i) && offers[i].0 == name ==> name in b && b[name] == offers[i].1
  }

  lemma OneMoreOffer(offers: seq<(string, string)>, b: Bindings, name: string)
    requires offers != [] && BindsEarliest(offers[..|offers| - 1], b, name)
    ensures BindsEarliest(offers, SetDefault(b, offers[|offers| - 1]), name)
  {
    OfferedInFront(offers, name);
    var all := SetDefault(b, offers[|offers| - 1]);
    forall i: nat | IsEarliest(offers, i) && offers[i].0 == name ensures name in all && all[name] == offers[i].1 {
      EarliestInFront(offers, i);
      if i == |offers| - 1 {
        NotOffered(offers[..i], name);
      }
      hide IsEarliest, IsOffered;
    }
    hide IsEarliest, IsOffered;
  }

  lemma NotOffered(offers: seq<(string, string)>, name: string)
    requires forall i :: 0 <= i < |offers| ==> offers[i].0 != name
    ensures !IsOffered(offers, name)
  {
  }

  lemma {:induction false} FirstWinsBindsEarliest(offers: seq<(string, string)>, name: string)
    ensures BindsEarliest(offers, FirstWins(offers), name)
  {
    FirstWinsStep(offers);
    if offers != [] {
      hide BindsEarliest, FirstWins, SetDefault;
      FirstWinsBindsEarliest(offers[..|offers| - 1], name);
      OneMoreOffer(offers, FirstWins(offers[..|offers| - 1]), name);
    }
  }

  /** A name is bound exactly when some statement offers it, and the earliest offer wins. */
  lemma EarliestOfferWins(offers: seq<(string, string)>, name: string)
    ensures name in FirstWins(offers) <==> exists i :: 0 <= i < |offers| && offers[i].0 == name
    ensures forall i: nat :: IsEarliest(offers, i) && offers[i].0 == name ==>
              name in FirstWins(offers) && FirstWins(offers)[name] == offers[i].1
  {
    hide FirstWins;
    FirstWinsBindsEarliest(offers, name);
  }

  lemma EarliestInFront(offers: seq<(string, string)>, i: nat)
    requires IsEarliest(offers, i)
    ensures var front := offers[..|offers| - 1];
            if i < |front| then IsEarliest(front, i) && front[i] == offers[i]
            else i == |front| && forall j :: 0 <= j < |front| ==> front[j].0 != offers[i].0
  {
  }

  lemma {:induction false} FirstWinsAppend(offers: seq<(string, string)>, offer: (string, string))
    ensures FirstWins(offers + [offer]) == SetDefault(FirstWins(offers), offer)
  {
    assert (offers + [offer])[..|offers|] == offers;
  }

  function BindingsOf(imports: seq<ParsedImport>, current: string, isPackage: bool): Bindings {
    FirstWins(AllOffers(imports, current, isPackage))
  }

  /** `from m import a, b`: `setdefault` for each name, under the resolved module. */
  method BindNames(imp: ParsedImport, target: string, given: Bindings, ghost before: seq<(string, string)>, ghost offers: seq<(string, string)>)
    returns (bindings: Bindings)
    requires given == FirstWins(before) && |offers| == |imp.names|
    requires forall i :: 0 <= i < |offers| ==> offers[i] == (Or(imp.alias, imp.names[i]), Qualify(target, imp.names[i]))
    ensures bindings == FirstWins(before + offers)
  {
    hide FirstWins, Or, Qualify;
    bindings := given;
    assert before + offers[..0] == before;
    for i := 0 to |imp.names|
      invariant bindings == FirstWins(before + offers[..i])
    {
      var name := imp.names[i];
      FirstWinsAppend(before + offers[..i], offers[i]);
      assert before + offers[..i] + [offers[i]] == before + offers[..i + 1];
      bindings := SetDefault(bindings, (Or(imp.alias, name), Qualify(target, name)));
    }
    assert offers[..|imp.names|] == offers;
  }

  /** One statement. `import a.b` binds the dotted path itself and its first segment. */
  method BindImport(imp: ParsedImport, current: string, isPackage: bool, given: Bindings, ghost before: seq<(string, string)>)
    returns (bindings: Bindings)
    requires given == FirstWins(before)
    ensures bindings == FirstWins(before + Offers(imp, current, isPackage))
  {
    var raw := Or(imp.source, "");
    var target := ResolveRelativeModule(raw, current, isPackage);
    if IsRelative(raw) || imp.names != [raw] {
      bindings := BindNames(imp, target, given, before, Offers(imp, current, isPackage));
      return;
    }
    ghost var first, second := (Or(imp.alias, raw), raw), (Head(raw), Head(raw));
    FirstWinsAppend(before, first);
    FirstWinsAppend(before + [first], second);
    assert before + [first] + [second] == before + Offers(imp, current, isPackage);
    bindings := SetDefault(given, (Or(imp.alias, raw), raw));
    bindings := SetDefault(bindings, (Head(raw), Head(raw)));
  }

  method BindingsFromImports(imports: seq<ParsedImport>, current: string, isPackage: bool) returns (bindings: Bindings)
    ensures bindings == BindingsOf(imports, current, isPackage)
  {
    bindings := map[];
    for k := 0 to |imports|
      invariant bindings == FirstWins(AllOffers(imports[..k], current, isPackage))
    {
      assert imports[..k + 1][..k] == imports[..k];
      bindings := BindImport(imports[k], current, isPackage, bindings, AllOffers(imports[..k], current, isPackage));
    }
    assert imports[..|imports|] == imports;
  }

  /** Every name the statement lists has its own target among the bound targets. */
  ghost predicate BindsEveryName(imp: ParsedImport, current: string, isPackage: bool) {
    var target := Resolved(Or(imp.source, ""), current, isPackage);
    forall i :: 0 <= i < |imp.names| ==>
      Qualify(target, imp.names[i]) in BindingsOf([imp], current, isPackage).Values
  }

  /** A statement read alone binds the target of every name it lists exactly when it carries no
      alias or lists one name over and over, and is not taken for a plain `import`. */
  lemma EveryListedNameIsBound(imp: ParsedImport, current: string, isPackage: bool)
    ensures BindsEveryName(imp, current, isPackage)
            <==> if IsPlain(imp) then Or(imp.source, "") == ""
                 else Or(imp.alias, "") == "" || forall i :: 0 <= i < |imp.names| ==> imp.names[i] == imp.names[0]
  {
    OneStatement(imp, current, isPackage);
    if IsPlain(imp) {
      PlainBindsThePath(imp, current, isPackage);
    } else if Or(imp.alias, "") == "" {
      EveryNameKeepsItsTarget(imp, current, isPackage);
    } else if imp.names != [] {
      OneKeyBindsOnce(Offers(imp, current, isPackage), Or(imp.alias, ""));
      forall i | 0 <= i < |imp.names| {
        QualifyInjective(Resolved(Or(imp.source, ""), current, isPackage), imp.names[0], imp.names[i]);
      }
      assert Qualify(Resolved(Or(imp.source, ""), current, isPackage), imp.names[0])
             == Offers(imp, current, isPackage)[0].1;
    }
  }

  /** A statement whose one name is its own module binds the path, or its first segment, and no
      name below it. */
  lemma PlainBindsThePath(imp: ParsedImport, current: string, isPackage: bool)
    requires IsPlain(imp)
    ensures var raw := Or(imp.source, "");
            var b := FirstWins(Offers(imp, current, isPackage));
            && (forall k :: k in b ==> b[k] == raw || b[k] == Head(raw))
            && Or(imp.alias, raw) in b && b[Or(imp.alias, raw)] == raw
            && (Qualify(raw, raw) in b.Values <==> raw == "")
  {
    var raw := Or(imp.source, "");
    var first, second := (Or(imp.alias, raw), raw), (Head(raw), Head(raw));
    FirstWinsAppend([], first);
    FirstWinsAppend([first], second);
    assert [] + [first] == [first] && [first] + [second] == Offers(imp, current, isPackage);
    var b := SetDefault(map[first.0 := raw], second);
    assert b == FirstWins(Offers(imp, current, isPackage)) && b[first.0] == raw;
    assert raw != "" ==> |Qualify(raw, raw)| > |raw| >= |Head(raw)|;
  }

  lemma EveryNameKeepsItsTarget(imp: ParsedImport, current: string, isPackage: bool)
    requires !IsPlain(imp) && Or(imp.alias, "") == ""
    ensures var b := FirstWins(Offers(imp, current, isPackage));
            && (forall k :: k in b <==> k in imp.names)
            && forall k :: k in b ==> b[k] == Qualify(Resolved(Or(imp.source, ""), current, isPackage), k)
  {
    var offers := Offers(imp, current, isPackage);
    assert forall i :: 0 <= i < |offers| ==> offers[i].0 == imp.names[i];
    forall k
      ensures k in FirstWins(offers) <==> k in imp.names
      ensures k in FirstWins(offers) ==> FirstWins(offers)[k] == Qualify(Resolved(Or(imp.source, ""), current, isPackage), k)
    {
      EarliestOfferWins(offers, k);
      if k in imp.names {
        var i := FirstPosition(imp.names, k);
        assert IsEarliest(offers, i);
      }
    }
  }

  lemma {:induction false} FirstPosition(names: seq<string>, name: string) returns (i: nat)
    requires name in names
    ensures i < |names| && names[i] == name && forall j :: 0 <= j < i ==> names[j] != name
  {
    if name in names[..|names| - 1] {
      i := FirstPosition(names[..|names| - 1], name);
    } else {
      i := |names| - 1;
    }
  }

  lemma OneStatement(imp: ParsedImport, current: string, isPackage: bool)
    ensures BindingsOf([imp], current, isPackage) == FirstWins(Offers(imp, current, isPackage))
  {
    assert [imp][..|[imp]| - 1] == [];
    assert AllOffers([], current, isPackage) == [];
    assert AllOffers([imp], current, isPackage) == Offers(imp, current, isPackage);
  }

  lemma OneKeyBindsOnce(offers: seq<(string, string)>, key: string)
    requires offers != [] && forall i :: 0 <= i < |offers| ==> offers[i].0 == key
    ensures FirstWins(offers) == map[key := offers[0].1]
  {
    EarliestOfferWins(offers, key);
    assert IsEarliest(offers, 0);
    forall k | k in FirstWins(offers) ensures k == key {
      EarliestOfferWins(offers, k);
    }
  }

  lemma QualifyInjective(target: string, a: string, b: string)
    ensures Qualify(target, a) == Qualify(target, b) ==> a == b
  {
    var n := |target| + 1;
    assert (target + "." + a)[n..] == a;
    assert (target + "." + b)[n..] == b;
  }

  // ---------------------------------------------------------------------------
  // Import nodes and back.
  // ---------------------------------------------------------------------------

  /** One result row of the query that reads `:Import` nodes. Properties hold "" for an
      absent module and keep an absent alias absent. */
  datatype ImportRow = ImportRow(owner: string, filePath: string, position: nat,
                                 source: string, names: seq<string>, alias: Option<string>)

  function EndsWith(s: string, suffix: string): bool {
    |suffix| <= |s| && s[|s| - |suffix|..] == suffix
  }

  predicate IsPackageFile(path: string) {
    EndsWith(path, "__init__.py")
  }

  /** The row the indexer writes for the import at `position` of a file. */
  function StoredRow(imp: ParsedImport, owner: string, path: string, position: nat): ImportRow {
    ImportRow(owner, path, position, Or(imp.source, ""), imp.names, imp.alias)
  }

  function NoneIfEmpty(value: Option<string>): Option<string> {
    if value.Some? && value.value == "" then None else value
  }

  function LoadedImport(row: ImportRow): ParsedImport {
    ParsedImport(NoneIfEmpty(Some(row.source)), row.names, NoneIfEmpty(row.alias))
  }

  /** Writing an import and reading it back changes none of the bindings it offers. */
  lemma StoreLoadKeepsOffers(imp: ParsedImport, current: string, isPackage: bool, path: string, position: nat)
    ensures Offers(LoadedImport(StoredRow(imp, current, path, position)), current, isPackage)
            == Offers(imp, current, isPackage)
  {
  }

  function StoredRows(imports: seq<ParsedImport>, owner: string, path: string): (rows: seq<ImportRow>)
    ensures |rows| == |imports|
    ensures forall i :: 0 <= i < |rows| ==> rows[i] == StoredRow(imports[i], owner, path, i)
  {
    seq(|imports|, i requires 0 <= i < |imports| => StoredRow(imports[i], owner, path, i))
  }

  function RowsOf(rows: seq<ImportRow>, owner: string): seq<ImportRow> {
    if rows == [] then []
    else RowsOf(rows[..|rows| - 1], owner)
         + (if rows[|rows| - 1].owner == owner then [rows[|rows| - 1]] else [])
  }

  function LoadedImports(rows: seq<ImportRow>): (imports: seq<ParsedImport>)
    ensures |imports| == |rows|
    ensures forall i :: 0 <= i < |rows| ==> imports[i] == LoadedImport(rows[i])
  {
    seq(|rows|, i requires 0 <= i < |rows| => LoadedImport(rows[i]))
  }

  /** The table entry the rows give `owner`, when they give it one. */
  function LoadedBindings(rows: seq<ImportRow>, owner: string): Bindings {
    var mine := RowsOf(rows, owner);
    if mine == [] then map[] else BindingsOf(LoadedImports(mine), owner, IsPackageFile(mine[0].filePath))
  }

  lemma RowsOfStep(rows: seq<ImportRow>, k: nat, owner: string)
    requires k < |rows|
    ensures RowsOf(rows[..k + 1], owner)
            == if rows[k].owner == owner then RowsOf(rows[..k], owner) + [rows[k]] else RowsOf(rows[..k], owner)
  {
    assert rows[..k + 1][..k] == rows[..k];
  }

  type Group = (bool, seq<ParsedImport>)

  /** What the grouping loop collects for a module: its package flag and its imports. */
  function GroupOf(mine: seq<ImportRow>): Group
    requires mine != []
  {
    (IsPackageFile(mine[0].filePath), LoadedImports(mine))
  }

  lemma GroupGrows(mine: seq<ImportRow>, row: ImportRow)
    ensures GroupOf(mine + [row])
            == if mine == [] then (IsPackageFile(row.filePath), [LoadedImport(row)])
               else (GroupOf(mine).0, GroupOf(mine).1 + [LoadedImport(row)])
  {
    assert LoadedImports(mine + [row]) == LoadedImports(mine) + [LoadedImport(row)];
    if mine == [] {
      assert GroupOf(mine + [row]).1 == [LoadedImport(row)];
    } else {
      assert (mine + [row])[0] == mine[0];
    }
  }

  ghost predicate GroupedAre(grouped: map<string, Group>, rows: seq<ImportRow>) {
    forall m ::
      (m in grouped <==> m != "" && RowsOf(rows, m) != [])
      && (m in grouped ==> grouped[m] == GroupOf(RowsOf(rows, m)))
  }

  method GroupImports(rows: seq<ImportRow>) returns (grouped: map<string, Group>)
    ensures GroupedAre(grouped, rows)
  {
    grouped := map[];
    for k := 0 to |rows|
      invariant GroupedAre(grouped, rows[..k])
    {
      var row := rows[k];
      forall m
        ensures RowsOf(rows[..k + 1], m) == if row.owner == m then RowsOf(rows[..k], m) + [row] else RowsOf(rows[..k], m)
      {
        RowsOfStep(rows, k, m);
      }
      if row.owner != "" {
        GroupGrows(RowsOf(rows[..k], row.owner), row);
        if row.owner !in grouped {
          grouped := grouped[row.owner := (IsPackageFile(row.filePath), [LoadedImport(row)])];
        } else {
          var (isPackage, imports) := grouped[row.owner];
          grouped := grouped[row.owner := (isPackage, imports + [LoadedImport(row)])];
        }
      }
    }
    assert rows[..|rows|] == rows;
  }

  method LoadModuleBindings(rows: seq<ImportRow>) returns (table: map<string, Bindings>)
    ensures forall m :: m in table <==> m != "" && RowsOf(rows, m) != []
    ensures forall m :: m in table ==> table[m] == LoadedBindings(rows, m)
  {
    var grouped := GroupImports(rows);
    table := map[];
    var owners := grouped.Keys;
    while owners != {}
      invariant owners <= grouped.Keys && table.Keys == grouped.Keys - owners
      invariant forall m :: m in table ==> table[m] == LoadedBindings(rows, m)
      decreases |owners|
    {
      var m :| m in owners;
      var b := BindingsFromImports(grouped[m].1, m, grouped[m].0);
      table := table[m := b];
      owners := owners - {m};
    }
  }

  lemma {:induction false} SameOffersSameBindings(a: seq<ParsedImport>, b: seq<ParsedImport>, current: string, isPackage: bool)
    requires |a| == |b|
    requires forall i :: 0 <= i < |a| ==> Offers(a[i], current, isPackage) == Offers(b[i], current, isPackage)
    ensures AllOffers(a, current, isPackage) == AllOffers(b, current, isPackage)
  {
    if a != [] {
      SameOffersSameBindings(a[..|a| - 1], b[..|b| - 1], current, isPackage);
    }
  }

  /** Rebuilding the table from the stored rows gives back what the parse bound. */
  lemma ReloadedBindingsAreTheParsedOnes(rows: seq<ImportRow>, imports: seq<ParsedImport>, owner: string, path: string)
    requires RowsOf(rows, owner) == StoredRows(imports, owner, path)
    ensures LoadedBindings(rows, owner) == BindingsOf(imports, owner, IsPackageFile(path))
  {
    var mine := RowsOf(rows, owner);
    forall i | 0 <= i < |imports|
      ensures Offers(LoadedImports(mine)[i], owner, IsPackageFile(path)) == Offers(imports[i], owner, IsPackageFile(path))
    {
      StoreLoadKeepsOffers(imports[i], owner, IsPackageFile(path), path, i);
    }
    SameOffersSameBindings(LoadedImports(mine), imports, owner, IsPackageFile(path));
  }
}
