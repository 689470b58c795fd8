/** The indexing pass as the program runs it: walk, compare hashes, purge, delete, write the
    batches, fill the lookup tables, resolve, and write the edges. */
module Indexer {
  import opened Options
  import opened ImportBindings
  import opened RelativeImports
  import opened NameResolution
  import opened GraphStore
  import opened ParsedFiles
  import opened IndexPass
  import opened NameIndexes
  import opened ImportListings
  import opened EdgeRows

  datatype Report = Report(seen: nat, indexed: nat, skipped: nat, purged: nat, parseErrors: seq<string>, unresolved: nat)

  // ---------------------------------------------------------------------------
  // Reads.
  // ---------------------------------------------------------------------------

  /** Every (qualified name, name) pair of some kinds, in no particular order. */
  method LoadNames(store: Store, kinds: set<Kind>) returns (entries: seq<Named>)
    ensures NamedSet(entries) == GraphNames(store.View(), kinds)
  {
    var rest := GraphNames(store.View(), kinds);
    entries := [];
    while rest != {}
      invariant NamedSet(entries) + rest == GraphNames(store.View(), kinds)
      decreases |rest|
    {
      var e :| e in rest;
      assert NamedSet(entries + [e]) == NamedSet(entries) + {e};
      entries := entries + [e];
      rest := rest - {e};
    }
  }

  lemma {:induction false} LeastPosition(edges: set<Edge>) returns (least: Edge)
    requires edges != {}
    ensures least in edges && forall e :: e in edges ==> least.dst.position <= e.dst.position
    decreases |edges|
  {
    least :| least in edges;
    if edges != {least} {
      var other := LeastPosition(edges - {least});
      if other.dst.position < least.dst.position {
        least := other;
      }
    }
  }

  /** `listed` holds those of `all` that are not in `rest`, by position and once each, and none
      comes after what is left. */
  ghost predicate PartlyListed(all: set<Edge>, listed: seq<Edge>, rest: set<Edge>) {
    && (forall e :: e in listed || e in rest <==> e in all)
    && (forall e :: e in listed ==> e !in rest)
    && (forall i, j :: 0 <= i < j < |listed| ==> listed[i] != listed[j])
    && (forall i, j :: 0 <= i < j < |listed| ==> listed[i].dst.position <= listed[j].dst.position)
    && (forall i, e :: 0 <= i < |listed| && e in rest ==> listed[i].dst.position <= e.dst.position)
  }

  lemma ListNext(all: set<Edge>, listed: seq<Edge>, rest: set<Edge>, least: Edge)
    requires PartlyListed(all, listed, rest)
    requires least in rest && forall e :: e in rest ==> least.dst.position <= e.dst.position
    ensures PartlyListed(all, listed + [least], rest - {least})
  {
    assert forall i :: 0 <= i < |listed| ==> listed[i] in listed;
  }

  /** The import edges with their ends, ordered by position. */
  method LoadImports(store: Store) returns (listed: seq<Edge>)
    ensures ImportListing(store.View(), listed)
  {
    var rest := set e | e in store.edges && ImportEnds(store.View(), e);
    ghost var all := rest;
    listed := [];
    while rest != {}
      invariant PartlyListed(all, listed, rest)
      decreases |rest|
    {
      ghost var least := LeastPosition(rest);
      var e :| e in rest && forall other :: other in rest ==> e.dst.position <= other.dst.position;
      ListNext(all, listed, rest, e);
      listed := listed + [e];
      rest := rest - {e};
    }
    assert forall e :: e in listed <==> e in all;
  }

  // ---------------------------------------------------------------------------
  // Tables.
  // ---------------------------------------------------------------------------

  function ClassNames(f: ParsedFile): (entries: seq<Named>)
    ensures |entries| == |f.classes|
  {
    seq(|f.classes|, i requires 0 <= i < |f.classes| => (f.classes[i].qualifiedName, f.classes[i].name))
  }

  function CallableNames(items: seq<ParsedCallable>): (entries: seq<Named>)
    ensures |entries| == |items|
  {
    seq(|items|, i requires 0 <= i < |items| => (items[i].qualifiedName, items[i].name))
  }

  /** The names a file adds to the index of some kinds before the graph is read. */
  function FileNames(f: ParsedFile, kinds: set<Kind>): seq<Named> {
    (if ClassKind in kinds then ClassNames(f) else [])
    + (if FunctionKind in kinds then CallableNames(f.functions) else [])
    + (if MethodKind in kinds then CallableNames(f.methods) else [])
  }

  /** The batch's files are those the contents settle on. */
  ghost predicate BatchIsSettled(tools: Tools, src: Contents, files: seq<ParsedFile>)
    requires Parses(tools, src)
  {
    forall f :: f in files ==> f.path in src && FileAt(tools, src, f.path) == f
  }

  lemma NameOfNode(tools: Tools, g: Graph, src: Contents, f: ParsedFile, kind: Kind, entry: Named)
    requires GoodTools(tools) && Consistent(tools, g, src) && f.path in src && FileAt(tools, src, f.path) == f
    requires kind in {ClassKind, FunctionKind, MethodKind}
    requires entry in (if kind == ClassKind then ClassNames(f)
                       else if kind == FunctionKind then CallableNames(f.functions) else CallableNames(f.methods))
    ensures Key(kind, entry.0, 0) in g.nodes && g.nodes[Key(kind, entry.0, 0)].props.EntityProps?
            && g.nodes[Key(kind, entry.0, 0)].props.shortName == entry.1
  {
    var k := Key(kind, entry.0, 0);
    EntityRowsAreNamed(f, kind, entry);
    LastNodeIsARow(RowsOfKind(f, kind), k);
    assert NodeIsRight(tools, g, src, k);
    hide Consistent, RowsOfKind;
  }

  /** A class, function or method has a row, and every row under its key has its short name. */
  lemma EntityRowsAreNamed(f: ParsedFile, kind: Kind, entry: Named)
    requires NamedByLastSegment(f) && kind in {ClassKind, FunctionKind, MethodKind}
    requires entry in (if kind == ClassKind then ClassNames(f)
                       else if kind == FunctionKind then CallableNames(f.functions) else CallableNames(f.methods))
    ensures var rows, k := RowsOfKind(f, kind), Key(kind, entry.0, 0);
            && (exists i :: 0 <= i < |rows| && rows[i].key == k)
            && forall i :: 0 <= i < |rows| && rows[i].key == k ==>
                 rows[i].node.props.EntityProps? && rows[i].node.props.shortName == entry.1
  {
    var rows := RowsOfKind(f, kind);
    var names := if kind == ClassKind then ClassNames(f)
                 else if kind == FunctionKind then CallableNames(f.functions) else CallableNames(f.methods);
    var i :| 0 <= i < |names| && names[i] == entry;
    assert rows[i].key == Key(kind, entry.0, 0);
  }

  lemma FileNamesAreInTheGraph(tools: Tools, g: Graph, src: Contents, f: ParsedFile, kinds: set<Kind>)
    requires GoodTools(tools) && Consistent(tools, g, src) && f.path in src && FileAt(tools, src, f.path) == f
    ensures NamedSet(FileNames(f, kinds)) <= GraphNames(g, kinds)
  {
    forall e | e in FileNames(f, kinds) ensures e in GraphNames(g, kinds) {
      if ClassKind in kinds && e in ClassNames(f) {
        NameOfNode(tools, g, src, f, ClassKind, e);
        assert Key(ClassKind, e.0, 0) in g.nodes;
      } else if FunctionKind in kinds && e in CallableNames(f.functions) {
        NameOfNode(tools, g, src, f, FunctionKind, e);
        assert Key(FunctionKind, e.0, 0) in g.nodes;
      } else {
        NameOfNode(tools, g, src, f, MethodKind, e);
        assert Key(MethodKind, e.0, 0) in g.nodes;
      }
    }
  }

  /** The name index of some kinds: the batch first, then the graph. */
  method BuildIndex(store: Store, files: seq<ParsedFile>, kinds: set<Kind>, ghost tools: Tools, ghost src: Contents)
    returns (ix: NameIndex)
    ensures GoodTools(tools) && Consistent(tools, store.View(), src) && BatchIsSettled(tools, src, files)
            ==> Indexes(ix, GraphNames(store.View(), kinds))
  {
    var entries: seq<Named> := [];
    for i := 0 to |files|
      invariant GoodTools(tools) && Consistent(tools, store.View(), src) && BatchIsSettled(tools, src, files)
                ==> NamedSet(entries) <= GraphNames(store.View(), kinds)
    {
      ghost var before := entries;
      entries := entries + FileNames(files[i], kinds);
      assert NamedSet(entries) == NamedSet(before) + NamedSet(FileNames(files[i], kinds));
      if GoodTools(tools) && Consistent(tools, store.View(), src) && BatchIsSettled(tools, src, files) {
        assert files[i] in files;
        FileNamesAreInTheGraph(tools, store.View(), src, files[i], kinds);
      }
    }
    var loaded := LoadNames(store, kinds);
    assert NamedSet(entries + loaded) == NamedSet(entries) + NamedSet(loaded);
    ix := FillIndex(entries + loaded);
  }

  /** A re-export table that answers for every file's home as the file's own imports do. */
  ghost predicate ReexportsFit(table: map<string, Bindings>, tools: Tools, src: Contents)
    requires Parses(tools, src)
  {
    forall p, name :: p in src && FileAt(tools, src, p).home != "" ==>
      Lookup(table, FileAt(tools, src, p).home, name)
      == if name in FileBindings(FileAt(tools, src, p)) then FileBindings(FileAt(tools, src, p))[name] else ""
  }

  /** The table rebuilt from import nodes fits, before any file of the batch overrides it. */
  lemma LoadedTableFits(tools: Tools, g: Graph, src: Contents, listed: seq<Edge>, table: map<string, Bindings>)
    requires GoodTools(tools) && Consistent(tools, g, src) && ImportListing(g, listed)
    requires forall m :: m in table <==> m != "" && RowsOf(ListedRows(g, listed), m) != []
    requires forall m :: m in table ==> table[m] == LoadedBindings(ListedRows(g, listed), m)
    ensures ReexportsFit(table, tools, src)
  {
    forall p | p in src && FileAt(tools, src, p).home != ""
      ensures forall name ::
                (Lookup(table, FileAt(tools, src, p).home, name)
                 == if name in FileBindings(FileAt(tools, src, p)) then FileBindings(FileAt(tools, src, p))[name] else "")
    {
      var f := FileAt(tools, src, p);
      ListingGivesStoredRows(tools, g, src, listed, p);
      ReloadedBindingsAreTheParsedOnes(ListedRows(g, listed), f.imports, f.home, p);
      if f.imports == [] {
        assert FileBindings(f) == map[];
      }
    }
  }

  lemma HomesAreDistinct(tools: Tools, g: Graph, src: Contents, p: string, q: string)
    requires GoodTools(tools) && Consistent(tools, g, src) && p in src && q in src
    requires FileAt(tools, src, p).home == FileAt(tools, src, q).home
    ensures p == q
  {
    var f, h := FileAt(tools, src, p), FileAt(tools, src, q);
    var k := Key(ModuleKind, f.home, 0);
    assert RowsOfKind(f, ModuleKind)[0].key == k && RowsOfKind(h, ModuleKind)[0].key == k;
    LastNodeIsARow(RowsOfKind(f, ModuleKind), k);
    LastNodeIsARow(RowsOfKind(h, ModuleKind), k);
    OwnNodeFacts(f, k);
    OwnNodeFacts(h, k);
    assert NodeIsRight(tools, g, src, k);
  }

  /** Reads the table back from the graph and lets the batch's own imports override it. */
  method BuildReexports(store: Store, files: seq<ParsedFile>, ghost tools: Tools, ghost src: Contents)
    returns (table: map<string, Bindings>)
    ensures GoodTools(tools) && Consistent(tools, store.View(), src) && BatchIsSettled(tools, src, files)
            ==> ReexportsFit(table, tools, src)
  {
    ghost var fits := GoodTools(tools) && Consistent(tools, store.View(), src) && BatchIsSettled(tools, src, files);
    var listed := LoadImports(store);
    table := LoadModuleBindings(ListedRows(store.View(), listed));
    if fits {
      LoadedTableFits(tools, store.View(), src, listed, table);
    }
    for i := 0 to |files|
      invariant fits ==> ReexportsFit(table, tools, src)
    {
      var f := files[i];
      if f.home != "" {
        var b := BindingsFromImports(f.imports, f.home, IsPackageFile(f.path));
        ghost var before := table;
        table := table[f.home := b];
        if fits {
          assert f in files;
          OverrideFits(tools, store.View(), src, before, f);
        }
      }
    }
  }

  lemma OverrideFits(tools: Tools, g: Graph, src: Contents, table: map<string, Bindings>, f: ParsedFile)
    requires GoodTools(tools) && Consistent(tools, g, src) && f.path in src && FileAt(tools, src, f.path) == f
    requires ReexportsFit(table, tools, src)
    ensures ReexportsFit(table[f.home := FileBindings(f)], tools, src)
  {
    forall p | p in src && FileAt(tools, src, p).home == f.home ensures p == f.path {
      HomesAreDistinct(tools, g, src, p, f.path);
    }
  }

  function Homes(files: seq<ParsedFile>): set<string> {
    set f | f in files :: f.home
  }

  lemma HomesAreModules(tools: Tools, g: Graph, src: Contents, files: seq<ParsedFile>)
    requires GoodTools(tools) && Consistent(tools, g, src) && BatchIsSettled(tools, src, files)
    ensures Homes(files) <= GraphQns(g, {ModuleKind})
  {
    forall f | f in files ensures f.home in GraphQns(g, {ModuleKind}) {
      var k := Key(ModuleKind, f.home, 0);
      var rows := RowsOfKind(f, ModuleKind);
      assert rows[0].key == k;
      LastNodeIsARow(rows, k);
      assert NodeIsRight(tools, g, src, k);
    }
  }

  /** The tables for calls and for base classes. */
  method BuildTables(store: Store, files: seq<ParsedFile>, ghost tools: Tools, ghost src: Contents)
    returns (calls: Tables, bases: Tables)
    ensures GoodTools(tools) && Consistent(tools, store.View(), src) && BatchIsSettled(tools, src, files)
            ==> TablesFit(calls, tools, store.View(), src, CALLABLES)
                && TablesFit(bases, tools, store.View(), src, {ClassKind})
  {
    var callables := BuildIndex(store, files, CALLABLES, tools, src);
    var classes := BuildIndex(store, files, {ClassKind}, tools, src);
    var modules := Homes(files) + GraphQns(store.View(), {ModuleKind});
    var reexports := BuildReexports(store, files, tools, src);
    calls := Tables(callables.qns, callables.names, modules, classes.qns, reexports);
    bases := Tables(classes.qns, classes.names, modules, classes.qns, reexports);
    if GoodTools(tools) && Consistent(tools, store.View(), src) && BatchIsSettled(tools, src, files) {
      HomesAreModules(tools, store.View(), src, files);
      QnsOfNames(store.View(), {ClassKind});
    }
  }

  lemma QnsOfNames(g: Graph, kinds: set<Kind>)
    ensures forall qn :: qn in GraphQns(g, kinds) <==> exists n :: (qn, n) in GraphNames(g, kinds)
  {
    forall qn | qn in GraphQns(g, kinds) ensures exists n :: (qn, n) in GraphNames(g, kinds) {
      var k :| k in g.nodes && k.kind in kinds && g.nodes[k].props.EntityProps? && k.name == qn;
      assert (qn, g.nodes[k].props.shortName) in GraphNames(g, kinds);
    }
  }

  // ---------------------------------------------------------------------------
  // Emission.
  // ---------------------------------------------------------------------------

  method FindVisible(f: ParsedFile, modules: set<string>) returns (visible: set<string>)
    ensures visible == VisibleModules(f, modules)
  {
    visible := if f.home == "" then {} else {f.home};
    for i := 0 to |f.imports|
      invariant visible == VisibleAfter(f, modules, i)
    {
      var raw := Or(f.imports[i].source, "");
      if raw != "" {
        var target := ResolveRelativeModule(raw, f.home, IsPackageFile(f.path));
        if target != "" && target in modules {
          visible := visible + {target};
        }
      }
    }
  }

  /** The CALLS rows of a batch, file by file. */
  function BatchCallRows(t: Tables, files: seq<ParsedFile>, n: nat): seq<Link>
    requires n <= |files|
  {
    if n == 0 then [] else BatchCallRows(t, files, n - 1) + CallRows(t, files[n - 1], |files[n - 1].calls|)
  }

  function BatchInheritRows(t: Tables, files: seq<ParsedFile>, n: nat): seq<Link>
    requires n <= |files|
  {
    if n == 0 then [] else BatchInheritRows(t, files, n - 1) + InheritRows(t, files[n - 1], |files[n - 1].classes|)
  }

  function CallCount(files: seq<ParsedFile>, n: nat): nat
    requires n <= |files|
  {
    if n == 0 then 0 else CallCount(files, n - 1) + |files[n - 1].calls|
  }

  /** A file's CALLS rows, and how many of its calls stay unresolved. */
  method EmitCalls(t: Tables, f: ParsedFile) returns (rows: seq<Link>, unresolved: nat)
    ensures rows == CallRows(t, f, |f.calls|) && |rows| + unresolved == |f.calls|
  {
    hide Resolution, BindingsOf, VisibleModules, IsPackageFile;
    var bindings := BindingsFromImports(f.imports, f.home, IsPackageFile(f.path));
    var visible := FindVisible(f, t.modules);
    rows, unresolved := [], 0;
    for i := 0 to |f.calls|
      invariant rows == CallRows(t, f, i) && |rows| + unresolved == i
    {
      var target := ResolveName(t, Reference(f.calls[i].callee, f.calls[i].caller, f.home, bindings, visible));
      if target.None? {
        unresolved := unresolved + 1;
      } else {
        rows := rows + [Link(f.calls[i].caller, target.value)];
      }
    }
  }

  method EmitBases(t: Tables, f: ParsedFile, cls: ParsedClass) returns (rows: seq<Link>)
    ensures rows == BaseRows(t, f, cls, |cls.bases|)
  {
    var bindings := BindingsFromImports(f.imports, f.home, IsPackageFile(f.path));
    var visible := FindVisible(f, t.modules);
    hide Resolution;
    rows := [];
    for i := 0 to |cls.bases|
      invariant rows == BaseRows(t, f, cls, i)
    {
      var parent := ResolveName(t, Reference(cls.bases[i], cls.qualifiedName, f.home, bindings, visible));
      if parent.Some? && parent.value != "" && parent.value != cls.qualifiedName {
        rows := rows + [Link(cls.qualifiedName, parent.value)];
      }
    }
  }

  method EmitInherits(t: Tables, f: ParsedFile) returns (rows: seq<Link>)
    ensures rows == InheritRows(t, f, |f.classes|)
  {
    rows := [];
    for i := 0 to |f.classes|
      invariant rows == InheritRows(t, f, i)
    {
      var more := EmitBases(t, f, f.classes[i]);
      rows := rows + more;
    }
  }

  function CallEdges(rows: seq<Link>): set<Edge> {
    set r, a, b | r in rows && a in CALLABLES && b in CALLABLES :: Edge(Calls, Key(a, r.source, 0), Key(b, r.target, 0))
  }

  function InheritEdges(rows: seq<Link>): set<Edge> {
    set r | r in rows :: Edge(InheritsFrom, Key(ClassKind, r.source, 0), Key(ClassKind, r.target, 0))
  }

  /** The graph once a batch's references are resolved with the given tables. */
  function WithReferences(g: Graph, files: seq<ParsedFile>, calls: Tables, bases: Tables): Graph {
    MergeEdges(MergeEdges(g, InheritEdges(BatchInheritRows(bases, files, |files|))),
               CallEdges(BatchCallRows(calls, files, |files|)))
  }

  method EmitAllInherits(t: Tables, files: seq<ParsedFile>) returns (rows: seq<Link>)
    ensures rows == BatchInheritRows(t, files, |files|)
  {
    rows := [];
    for i := 0 to |files|
      invariant rows == BatchInheritRows(t, files, i)
    {
      var more := EmitInherits(t, files[i]);
      rows := rows + more;
    }
  }

  /** The CALLS rows of the batch, and how many of its calls stay unresolved. */
  method EmitAllCalls(t: Tables, files: seq<ParsedFile>) returns (rows: seq<Link>, unresolved: nat)
    ensures rows == BatchCallRows(t, files, |files|) && |rows| + unresolved == CallCount(files, |files|)
  {
    rows, unresolved := [], 0;
    for i := 0 to |files|
      invariant rows == BatchCallRows(t, files, i) && |rows| + unresolved == CallCount(files, i)
    {
      var more, missed := EmitCalls(t, files[i]);
      rows := rows + more;
      unresolved := unresolved + missed;
    }
  }

  method WriteStructure(store: Store, files: seq<ParsedFile>)
    modifies store
    ensures store.View() == UpsertStructure(old(store.View()), files)
  {
    store.Merge(Batches(files, WRITE_ORDER));
    store.Link(BatchEdges(files));
  }

  method WriteReferences(store: Store, files: seq<ParsedFile>, calls: Tables, bases: Tables) returns (unresolved: nat)
    modifies store
    ensures store.View() == WithReferences(old(store.View()), files, calls, bases)
    ensures unresolved + |BatchCallRows(calls, files, |files|)| == CallCount(files, |files|)
  {
    var inherits := EmitAllInherits(bases, files);
    store.Link(InheritEdges(inherits));
    var rows;
    rows, unresolved := EmitAllCalls(calls, files);
    store.Link(CallEdges(rows));
  }

  /** Writes a batch: the nodes label by label, the import edges, then what resolves. */
  method UpsertParsedFiles(store: Store, files: seq<ParsedFile>, ghost tools: Tools, ghost src: Contents)
    returns (unresolved: nat, ghost calls: Tables, ghost bases: Tables)
    modifies store
    ensures store.View() == WithReferences(UpsertStructure(old(store.View()), files), files, calls, bases)
    ensures unresolved + |BatchCallRows(calls, files, |files|)| == CallCount(files, |files|)
    ensures GoodTools(tools) && Consistent(tools, UpsertStructure(old(store.View()), files), src)
            && BatchIsSettled(tools, src, files)
            ==> TablesFit(calls, tools, UpsertStructure(old(store.View()), files), src, CALLABLES)
                && TablesFit(bases, tools, UpsertStructure(old(store.View()), files), src, {ClassKind})
  {
    WriteStructure(store, files);
    var callTables, baseTables := BuildTables(store, files, tools, src);
    calls, bases := callTables, baseTables;
    unresolved := WriteReferences(store, files, callTables, baseTables);
  }

  // ---------------------------------------------------------------------------
  // The pass.
  // ---------------------------------------------------------------------------

  /** What the walk decides before anything is written. */
  datatype Scan = Scan(toUpsert: seq<ParsedFile>, changed: seq<string>, errors: seq<string>, skipped: nat, reindexed: seq<string>)

  /** What the walk has decided once it is through `seen`. */
  ghost predicate ScanIs(scan: Scan, tools: Tools, g: Graph, disk: Contents, seen: seq<string>, mode: Mode)
    requires forall p :: p in seen ==> p in disk
  {
    && FatesAre(scan, tools, g, disk, seen, mode)
    && scan.toUpsert == ParseAll(tools, disk, scan.reindexed)
    && PathSet(scan.changed) == ChangedPaths(g, scan.reindexed)
  }

  ghost predicate FatesAre(scan: Scan, tools: Tools, g: Graph, disk: Contents, seen: seq<string>, mode: Mode)
    requires forall p :: p in seen ==> p in disk
  {
    && scan.reindexed == WithFate(tools, g, disk, mode, seen, Reindexed)
    && scan.errors == WithFate(tools, g, disk, mode, seen, Failed)
    && scan.skipped == |WithFate(tools, g, disk, mode, seen, Skipped)|
    && scan.skipped + |scan.reindexed| + |scan.errors| == |seen|
  }

  lemma FateStep(tools: Tools, g: Graph, disk: Contents, mode: Mode, seen: seq<string>, path: string, fate: Fate)
    requires path in disk && forall p :: p in seen ==> p in disk
    ensures WithFate(tools, g, disk, mode, seen + [path], fate)
            == WithFate(tools, g, disk, mode, seen, fate) + if FateOf(tools, g, disk, mode, path) == fate then [path] else []
  {
    assert (seen + [path])[..|seen|] == seen;
  }

  lemma ChangedStep(g: Graph, changed: seq<string>, paths: seq<string>, path: string)
    requires PathSet(changed) == ChangedPaths(g, paths)
    ensures PathSet(if StoredHash(g, path).Some? then changed + [path] else changed) == ChangedPaths(g, paths + [path])
  {
    assert PathSet(changed + [path]) == PathSet(changed) + {path};
    forall p ensures p in ChangedPaths(g, paths + [path]) <==> p in ChangedPaths(g, paths) || (p == path && StoredHash(g, path).Some?) {
    }
  }

  lemma FatesStep(tools: Tools, g: Graph, disk: Contents, mode: Mode, seen: seq<string>, path: string)
    requires path in disk && forall p :: p in seen ==> p in disk
    ensures forall fate :: WithFate(tools, g, disk, mode, seen + [path], fate)
              == WithFate(tools, g, disk, mode, seen, fate) + if FateOf(tools, g, disk, mode, path) == fate then [path] else []
  {
    forall fate
      ensures WithFate(tools, g, disk, mode, seen + [path], fate)
              == WithFate(tools, g, disk, mode, seen, fate) + if FateOf(tools, g, disk, mode, path) == fate then [path] else []
    {
      FateStep(tools, g, disk, mode, seen, path, fate);
    }
  }

  /** What one more file with a given fate does to the scan. */
  function AfterFile(scan: Scan, tools: Tools, g: Graph, disk: Contents, mode: Mode, path: string): Scan
    requires path in disk
  {
    match FateOf(tools, g, disk, mode, path)
    case Skipped => scan.(skipped := scan.skipped + 1)
    case Failed => scan.(errors := scan.errors + [path])
    case Reindexed =>
      scan.(toUpsert := scan.toUpsert + [tools.parse(path, disk[path]).file],
            changed := if StoredHash(g, path).Some? then scan.changed + [path] else scan.changed,
            reindexed := scan.reindexed + [path])
  }

  lemma FatesAfterFile(scan: Scan, tools: Tools, g: Graph, disk: Contents, seen: seq<string>, mode: Mode, path: string)
    requires path in disk && forall p :: p in seen ==> p in disk
    requires FatesAre(scan, tools, g, disk, seen, mode)
    ensures FatesAre(AfterFile(scan, tools, g, disk, mode, path), tools, g, disk, seen + [path], mode)
  {
    FatesStep(tools, g, disk, mode, seen, path);
    hide WithFate;
  }

  lemma BatchAfterFile(scan: Scan, tools: Tools, g: Graph, disk: Contents, mode: Mode, path: string)
    requires path in disk && forall p :: p in scan.reindexed ==> p in disk && tools.parse(p, disk[p]).Parsed?
    requires scan.toUpsert == ParseAll(tools, disk, scan.reindexed) && PathSet(scan.changed) == ChangedPaths(g, scan.reindexed)
    ensures var next := AfterFile(scan, tools, g, disk, mode, path);
            (forall p :: p in next.reindexed ==> p in disk && tools.parse(p, disk[p]).Parsed?)
            && next.toUpsert == ParseAll(tools, disk, next.reindexed) && PathSet(next.changed) == ChangedPaths(g, next.reindexed)
  {
    ChangedStep(g, scan.changed, scan.reindexed, path);
    hide ChangedPaths, PathSet;
  }

  lemma AfterFileIs(scan: Scan, tools: Tools, g: Graph, disk: Contents, seen: seq<string>, mode: Mode, path: string)
    requires path in disk && forall p :: p in seen ==> p in disk
    requires ScanIs(scan, tools, g, disk, seen, mode)
    ensures ScanIs(AfterFile(scan, tools, g, disk, mode, path), tools, g, disk, seen + [path], mode)
  {
    FatesAfterFile(scan, tools, g, disk, seen, mode, path);
    BatchAfterFile(scan, tools, g, disk, mode, path);
    hide FatesAre, AfterFile, ChangedPaths, PathSet, ParseAll;
  }

  /** One file of the walk: skipped, failed, or up for re-indexing. */
  method ScanFile(g: Graph, tools: Tools, disk: Contents, mode: Mode, path: string, scan: Scan, ghost seen: seq<string>)
    returns (next: Scan)
    requires path in disk && forall p :: p in seen ==> p in disk
    requires ScanIs(scan, tools, g, disk, seen, mode)
    ensures ScanIs(next, tools, g, disk, seen + [path], mode)
  {
    AfterFileIs(scan, tools, g, disk, seen, mode, path);
    var previous := StoredHash(g, path);
    next := scan;
    if mode != Full && previous == Some(tools.hash(disk[path])) {
      next := next.(skipped := scan.skipped + 1);
    } else {
      var parsed := tools.parse(path, disk[path]);
      if parsed.ParseError? {
        next := next.(errors := scan.errors + [path]);
      } else {
        if previous.Some? {
          next := next.(changed := scan.changed + [path]);
        }
        next := next.(toUpsert := scan.toUpsert + [parsed.file], reindexed := scan.reindexed + [path]);
      }
    }
  }

  /** The hash comparison, file by file. */
  method ScanTree(g: Graph, tools: Tools, disk: Contents, listing: seq<string>, mode: Mode) returns (scan: Scan)
    requires Lists(listing, disk)
    ensures ScanIs(scan, tools, g, disk, listing, mode)
  {
    scan := Scan([], [], [], 0, []);
    assert ScanIs(scan, tools, g, disk, listing[..0], mode);
    hide ScanIs, FatesAre;
    for i := 0 to |listing|
      invariant ScanIs(scan, tools, g, disk, listing[..i], mode)
    {
      assert listing[..i + 1] == listing[..i] + [listing[i]];
      scan := ScanFile(g, tools, disk, mode, listing[i], scan, listing[..i]);
    }
    assert listing[..|listing|] == listing;
  }

  /** Paths to purge, in no particular order. */
  method FindStale(g: Graph, disk: Contents) returns (stale: seq<string>)
    ensures PathSet(stale) == StalePaths(g, disk) && |stale| == |StalePaths(g, disk)|
  {
    var rest := StalePaths(g, disk);
    stale := [];
    while rest != {}
      invariant PathSet(stale) + rest == StalePaths(g, disk) && PathSet(stale) !! rest
      invariant |stale| + |rest| == |StalePaths(g, disk)|
      decreases |rest|
    {
      var p :| p in rest;
      assert PathSet(stale + [p]) == PathSet(stale) + {p};
      stale := stale + [p];
      rest := rest - {p};
    }
  }

  /** Deletes what changed and writes the batch; nothing at all when there is nothing to write. */
  method Reindex(store: Store, changed: seq<string>, files: seq<ParsedFile>, ghost tools: Tools, ghost src: Contents)
    returns (unresolved: nat, ghost calls: Tables, ghost bases: Tables)
    requires files == [] ==> changed == []
    modifies store
    ensures var after := UpsertStructure(DeleteSubtrees(old(store.View()), PathSet(changed)), files);
            store.View() == WithReferences(after, files, calls, bases)
            && (files != [] && GoodTools(tools) && Consistent(tools, after, src) && BatchIsSettled(tools, src, files)
                ==> TablesFit(calls, tools, after, src, CALLABLES) && TablesFit(bases, tools, after, src, {ClassKind}))
    ensures unresolved + |BatchCallRows(calls, files, |files|)| == CallCount(files, |files|)
  {
    if files != [] {
      store.Delete(changed);
      unresolved, calls, bases := UpsertParsedFiles(store, files, tools, src);
    } else {
      unresolved := 0;
      calls := Tables({}, map[], {}, {}, map[]);
      bases := calls;
      EmptyBatch(store.View());
    }
  }

  /** On a sound start, the graph after the pass is consistent with the settled contents, and the
      batch consists of files those contents settle on. */
  ghost predicate Sound(tools: Tools, g: Graph, src: Contents, disk: Contents) {
    GoodTools(tools) && Consistent(tools, g, src)
    && Parses(tools, Settled(tools, src, disk)) && Disjoint(tools, Settled(tools, src, disk))
  }

  lemma SoundPass(tools: Tools, g: Graph, src: Contents, disk: Contents, listing: seq<string>, mode: Mode)
    requires Sound(tools, g, src, disk) && Lists(listing, disk)
    ensures Consistent(tools, StructuralPass(tools, g, disk, listing, mode), Settled(tools, src, disk))
    ensures BatchIsSettled(tools, Settled(tools, src, disk), BatchOf(tools, g, disk, listing, mode))
    ensures forall calls, bases :: Consistent(tools,
              WithReferences(StructuralPass(tools, g, disk, listing, mode), BatchOf(tools, g, disk, listing, mode), calls, bases),
              Settled(tools, src, disk))
  {
    PassKeepsConsistency(tools, g, src, disk, listing, mode);
    BatchSettles(tools, g, src, disk, listing, mode);
    var after, files := StructuralPass(tools, g, disk, listing, mode), BatchOf(tools, g, disk, listing, mode);
    forall calls, bases ensures Consistent(tools, WithReferences(after, files, calls, bases), Settled(tools, src, disk)) {
      ReferencesKeepConsistency(tools, after, Settled(tools, src, disk), files, calls, bases);
    }
  }

  lemma ScanGivesTheBatch(scan: Scan, tools: Tools, g: Graph, disk: Contents, listing: seq<string>, mode: Mode)
    requires Lists(listing, disk) && ScanIs(scan, tools, g, disk, listing, mode)
    ensures scan.toUpsert == BatchOf(tools, g, disk, listing, mode)
    ensures StructuralPass(tools, g, disk, listing, mode)
            == UpsertStructure(DeleteSubtrees(DeleteSubtrees(g, StalePaths(g, disk)), PathSet(scan.changed)), scan.toUpsert)
    ensures scan.toUpsert == [] ==> scan.changed == []
    ensures scan.skipped + |scan.toUpsert| + |scan.errors| == |listing|
  {
    if scan.changed != [] {
      assert scan.changed[0] in PathSet(scan.changed);
    }
  }

  /** One pass. The graph becomes the structural pass's, with the batch's references resolved by
      the returned tables; from a consistent graph those tables fit what the pass leaves. */
  method IndexRepository(store: Store, tools: Tools, disk: Contents, listing: seq<string>, mode: Mode, ghost src: Contents)
    returns (report: Report, ghost calls: Tables, ghost bases: Tables)
    requires Lists(listing, disk)
    modifies store
    ensures var files := BatchOf(tools, old(store.View()), disk, listing, mode);
            var after := StructuralPass(tools, old(store.View()), disk, listing, mode);
            && store.View() == WithReferences(after, files, calls, bases)
            && report.indexed == |files|
            && report.unresolved + |BatchCallRows(calls, files, |files|)| == CallCount(files, |files|)
            && (Sound(tools, old(store.View()), src, disk) ==>
                  && Consistent(tools, store.View(), Settled(tools, src, disk))
                  && (files != [] ==> TablesFit(calls, tools, after, Settled(tools, src, disk), CALLABLES)
                                      && TablesFit(bases, tools, after, Settled(tools, src, disk), {ClassKind})))
    ensures report.seen == |listing| && report.seen == report.skipped + report.indexed + |report.parseErrors|
    ensures report.parseErrors == WithFate(tools, old(store.View()), disk, mode, listing, Failed)
    ensures report.purged == |StalePaths(old(store.View()), disk)|
  {
    ghost var before := store.View();
    var scan := ScanTree(store.View(), tools, disk, listing, mode);
    ScanGivesTheBatch(scan, tools, before, disk, listing, mode);
    var stale := FindStale(store.View(), disk);
    store.Delete(stale);
    if Sound(tools, before, src, disk) {
      SoundPass(tools, before, src, disk, listing, mode);
    }
    var unresolved;
    unresolved, calls, bases := Reindex(store, scan.changed, scan.toUpsert, tools, Settled(tools, src, disk));
    report := Report(|listing|, |scan.toUpsert|, scan.skipped, |stale|, scan.errors, unresolved);
  }

  lemma EmptyBatch(g: Graph)
    ensures UpsertStructure(DeleteSubtrees(g, PathSet([])), []) == g
    ensures forall t: Tables :: WithReferences(g, [], t, t) == g
  {
    assert PathSet([]) == {};
    DeletingNothing(g);
    WritingNothing(g);
    forall t: Tables ensures WithReferences(g, [], t, t) == g {
      assert InheritEdges([]) == {} && CallEdges([]) == {};
    }
  }

  lemma BatchSettles(tools: Tools, g: Graph, src: Contents, disk: Contents, listing: seq<string>, mode: Mode)
    requires GoodTools(tools) && Consistent(tools, g, src) && Lists(listing, disk)
    requires Parses(tools, Settled(tools, src, disk))
    ensures BatchIsSettled(tools, Settled(tools, src, disk), BatchOf(tools, g, disk, listing, mode))
  {
    var files := BatchOf(tools, g, disk, listing, mode);
    forall f | f in files ensures f.path in Settled(tools, src, disk) && FileAt(tools, Settled(tools, src, disk), f.path) == f {
      var i :| 0 <= i < |files| && files[i] == f;
      BatchIsReindexed(tools, g, disk, listing, mode, i);
      UntouchedContent(tools, g, src, disk, mode, f.path);
    }
  }

  /** Reference edges are not part of what consistency speaks of. */
  lemma ReferencesKeepConsistency(tools: Tools, g: Graph, src: Contents, files: seq<ParsedFile>, calls: Tables, bases: Tables)
    requires Consistent(tools, g, src)
    ensures Consistent(tools, WithReferences(g, files, calls, bases), src)
  {
    var h := WithReferences(g, files, calls, bases);
    forall k ensures NodeIsRight(tools, h, src, k) {
      assert NodeIsRight(tools, g, src, k);
    }
  }
}
