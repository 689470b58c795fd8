/** The lookup tables a pass builds and the CALLS and INHERITS_FROM rows it emits.

    Tables are filled first from the batch and then from the graph. On a consistent graph
    any batch gives the same tables up to order, so a file's rows do not depend on which
    other files the pass happened to re-index. */
module EdgeRows {
  import opened RelativeImports
  import opened ImportBindings
  import opened NameResolution
  import opened ResolutionOrder
  import opened GraphStore
  import opened ParsedFiles
  import opened IndexPass
  import opened NameIndexes

  // ---------------------------------------------------------------------------
  // The tables of a pass.
  // ---------------------------------------------------------------------------

  /** What a file's imports bind. */
  function FileBindings(f: ParsedFile): Bindings {
    BindingsOf(f.imports, f.home, IsPackageFile(f.path))
  }

  /** The tables a pass resolves with, for one kind of reference: calls resolve among the
      callables, base classes among the classes. */
  ghost predicate TablesFit(t: Tables, tools: Tools, g: Graph, src: Contents, kinds: set<Kind>)
    requires Parses(tools, src)
  {
    && Indexes(NameIndex(t.qns, t.names), GraphNames(g, kinds))
    && t.modules == GraphQns(g, {ModuleKind})
    && t.classes == GraphQns(g, {ClassKind})
    && (forall p, name :: p in src && FileAt(tools, src, p).home != "" ==>
          Lookup(t.reexports, FileAt(tools, src, p).home, name)
          == if name in FileBindings(FileAt(tools, src, p)) then FileBindings(FileAt(tools, src, p))[name] else "")
  }

  /** Every module of a consistent graph is the home of one of its files. */
  lemma ModuleHasAFile(tools: Tools, g: Graph, src: Contents, m: string) returns (p: string)
    requires GoodTools(tools) && Consistent(tools, g, src) && m in GraphQns(g, {ModuleKind})
    ensures p in src && FileAt(tools, src, p).home == m
  {
    var k :| k in g.nodes && k.kind == ModuleKind && k.name == m;
    assert NodeIsRight(tools, g, src, k);
    p := g.nodes[k].filePath;
    LastNodeIsARow(RowsOfKind(FileAt(tools, src, p), ModuleKind), k);
  }

  /** Tables fitted to two graphs with the same nodes resolve alike. */
  lemma FittedTablesAreTheSame(tools: Tools, g: Graph, h: Graph, src: Contents, kinds: set<Kind>, t: Tables, u: Tables)
    requires GoodTools(tools) && Consistent(tools, g, src) && Consistent(tools, h, src)
    requires TablesFit(t, tools, g, src, kinds) && TablesFit(u, tools, h, src, kinds)
    ensures SameTables(t, u)
  {
    ConsistentGraphsAgree(tools, g, h, src);
    assert GraphNames(g, kinds) == GraphNames(h, kinds);
    forall owner, first | owner in t.modules && owner != ""
      ensures Lookup(t.reexports, owner, first) == Lookup(u.reexports, owner, first)
    {
      var p := ModuleHasAFile(tools, g, src, owner);
    }
    assert t.qns == u.qns by {
      assert forall qn :: qn in t.qns <==> exists n :: (qn, n) in GraphNames(g, kinds);
      assert forall qn :: qn in u.qns <==> exists n :: (qn, n) in GraphNames(h, kinds);
    }
  }

  // ---------------------------------------------------------------------------
  // Rows.
  // ---------------------------------------------------------------------------

  /** The modules a file may resolve into: its own and the indexed ones it imports. */
  function VisibleAfter(f: ParsedFile, modules: set<string>, n: nat): set<string>
    requires n <= |f.imports|
  {
    if n == 0 then (if f.home == "" then {} else {f.home})
    else
      var raw := Or(f.imports[n - 1].source, "");
      var target := Resolved(raw, f.home, IsPackageFile(f.path));
      VisibleAfter(f, modules, n - 1) + (if raw != "" && target != "" && target in modules then {target} else {})
  }

  function VisibleModules(f: ParsedFile, modules: set<string>): set<string> {
    VisibleAfter(f, modules, |f.imports|)
  }

  function ReferenceIn(f: ParsedFile, modules: set<string>, callee: string, caller: string): Reference {
    Reference(callee, caller, f.home, FileBindings(f), VisibleModules(f, modules))
  }

  /** A row of the CALLS or INHERITS_FROM batch. */
  datatype Link = Link(source: string, target: string)

  function CallRow(t: Tables, f: ParsedFile, call: ParsedCall): seq<Link> {
    var target := Resolution(t, ReferenceIn(f, t.modules, call.callee, call.caller));
    if target.Some? then [Link(call.caller, target.value)] else []
  }

  /** The CALLS rows of a file's first `n` calls. */
  function CallRows(t: Tables, f: ParsedFile, n: nat): seq<Link>
    requires n <= |f.calls|
  {
    if n == 0 then [] else CallRows(t, f, n - 1) + CallRow(t, f, f.calls[n - 1])
  }

  /** A base that resolves to the class itself, or to an empty name, gives no row. */
  function BaseRow(t: Tables, f: ParsedFile, cls: ParsedClass, base: string): seq<Link> {
    var target := Resolution(t, ReferenceIn(f, t.modules, base, cls.qualifiedName));
    if target.Some? && target.value != "" && target.value != cls.qualifiedName
    then [Link(cls.qualifiedName, target.value)] else []
  }

  function BaseRows(t: Tables, f: ParsedFile, cls: ParsedClass, n: nat): seq<Link>
    requires n <= |cls.bases|
  {
    if n == 0 then [] else BaseRows(t, f, cls, n - 1) + BaseRow(t, f, cls, cls.bases[n - 1])
  }

  /** The INHERITS_FROM rows of a file's first `n` classes. */
  function InheritRows(t: Tables, f: ParsedFile, n: nat): seq<Link>
    requires n <= |f.classes|
  {
    if n == 0 then []
    else InheritRows(t, f, n - 1) + BaseRows(t, f, f.classes[n - 1], |f.classes[n - 1].bases|)
  }

  lemma SameRow(t: Tables, u: Tables, f: ParsedFile)
    requires SameTables(t, u)
    ensures forall call :: CallRow(t, f, call) == CallRow(u, f, call)
    ensures forall cls, base :: BaseRow(t, f, cls, base) == BaseRow(u, f, cls, base)
  {
    forall call ensures CallRow(t, f, call) == CallRow(u, f, call) {
      ResolutionIgnoresTableOrder(t, u, ReferenceIn(f, t.modules, call.callee, call.caller));
    }
    forall cls, base ensures BaseRow(t, f, cls, base) == BaseRow(u, f, cls, base) {
      ResolutionIgnoresTableOrder(t, u, ReferenceIn(f, t.modules, base, cls.qualifiedName));
    }
  }

  lemma {:induction false} SameCallRows(t: Tables, u: Tables, f: ParsedFile, n: nat)
    requires n <= |f.calls| && forall call :: CallRow(t, f, call) == CallRow(u, f, call)
    ensures CallRows(t, f, n) == CallRows(u, f, n)
  {
    hide CallRow;
    if n > 0 {
      SameCallRows(t, u, f, n - 1);
    }
  }

  lemma {:induction false} SameBaseRows(t: Tables, u: Tables, f: ParsedFile, cls: ParsedClass, n: nat)
    requires n <= |cls.bases| && forall base :: BaseRow(t, f, cls, base) == BaseRow(u, f, cls, base)
    ensures BaseRows(t, f, cls, n) == BaseRows(u, f, cls, n)
  {
    hide BaseRow;
    if n > 0 {
      SameBaseRows(t, u, f, cls, n - 1);
    }
  }

  lemma {:induction false} SameInheritRows(t: Tables, u: Tables, f: ParsedFile, n: nat)
    requires n <= |f.classes| && forall cls, base :: BaseRow(t, f, cls, base) == BaseRow(u, f, cls, base)
    ensures InheritRows(t, f, n) == InheritRows(u, f, n)
  {
    hide BaseRow;
    if n > 0 {
      SameInheritRows(t, u, f, n - 1);
      SameBaseRows(t, u, f, f.classes[n - 1], |f.classes[n - 1].bases|);
    }
  }

  /** For every file, an incremental pass and a full pass over the same tree emit the same
      CALLS and INHERITS_FROM rows, whatever batches their tables were filled from. */
  lemma EmittedRowsDoNotDependOnTheMode(
    tools: Tools, g: Graph, src: Contents, disk: Contents, listing: seq<string>, otherListing: seq<string>,
    calls: Tables, bases: Tables, fullCalls: Tables, fullBases: Tables, p: string)
    requires GoodTools(tools) && Consistent(tools, g, src) && Lists(listing, disk) && Lists(otherListing, disk)
    requires Parses(tools, Settled(tools, src, disk)) && Disjoint(tools, Settled(tools, src, disk))
    requires var settled := Settled(tools, src, disk);
             var incremental := StructuralPass(tools, g, disk, listing, Incremental);
             var full := StructuralPass(tools, g, disk, otherListing, Full);
             TablesFit(calls, tools, incremental, settled, CALLABLES)
             && TablesFit(bases, tools, incremental, settled, {ClassKind})
             && TablesFit(fullCalls, tools, full, settled, CALLABLES)
             && TablesFit(fullBases, tools, full, settled, {ClassKind})
    requires p in Settled(tools, src, disk)
    ensures var f := FileAt(tools, Settled(tools, src, disk), p);
            CallRows(calls, f, |f.calls|) == CallRows(fullCalls, f, |f.calls|)
            && InheritRows(bases, f, |f.classes|) == InheritRows(fullBases, f, |f.classes|)
  {
    var settled := Settled(tools, src, disk);
    var f := FileAt(tools, settled, p);
    var incremental := StructuralPass(tools, g, disk, listing, Incremental);
    var full := StructuralPass(tools, g, disk, otherListing, Full);
    PassKeepsConsistency(tools, g, src, disk, listing, Incremental);
    PassKeepsConsistency(tools, g, src, disk, otherListing, Full);
    FittedTablesAreTheSame(tools, incremental, full, settled, CALLABLES, calls, fullCalls);
    FittedTablesAreTheSame(tools, incremental, full, settled, {ClassKind}, bases, fullBases);
    SameRow(calls, fullCalls, f);
    SameRow(bases, fullBases, f);
    SameCallRows(calls, fullCalls, f, |f.calls|);
    SameInheritRows(bases, fullBases, f, |f.classes|);
  }

  /** What re-indexing costs: an edge between entities outlives a pass's deletes exactly when the
      files of both its ends are left alone. */
  lemma EdgeSurvivesExactlyBetweenUntouchedFiles(
    tools: Tools, g: Graph, src: Contents, disk: Contents, listing: seq<string>, mode: Mode, e: Edge)
    requires GoodTools(tools) && Consistent(tools, g, src) && Lists(listing, disk)
    requires e in g.edges && e.relation != Imports && e.src in g.nodes && e.dst in g.nodes
    ensures e in StructuralPass(tools, g, disk, listing, mode).edges
            <==> forall end :: end in {e.src, e.dst} ==>
                   g.nodes[end].filePath in disk && FateOf(tools, g, disk, mode, g.nodes[end].filePath) != Reindexed
  {
    OnlyImportEdgesAreStructural(tools, g, disk, listing, mode, e);
    EndStays(tools, g, src, disk, listing, mode, e.src);
    EndStays(tools, g, src, disk, listing, mode, e.dst);
    assert e.src in {e.src, e.dst} && e.dst in {e.src, e.dst};
  }

  /** The graph between a pass's deletes and its writes. */
  function Cleared(tools: Tools, g: Graph, disk: Contents, listing: seq<string>, mode: Mode): Graph
    requires Lists(listing, disk)
  {
    DeleteSubtrees(DeleteSubtrees(g, StalePaths(g, disk)),
                   ChangedPaths(g, WithFate(tools, g, disk, mode, listing, Reindexed)))
  }

  lemma OnlyImportEdgesAreStructural(tools: Tools, g: Graph, disk: Contents, listing: seq<string>, mode: Mode, e: Edge)
    requires Lists(listing, disk) && e.relation != Imports
    ensures e in StructuralPass(tools, g, disk, listing, mode).edges <==> e in Cleared(tools, g, disk, listing, mode).edges
  {
    var files := BatchOf(tools, g, disk, listing, mode);
    forall f | f in files && e in ImportEdges(f) ensures false {
      EndsOfImportEdges(f, e);
    }
    assert e !in BatchEdges(files);
  }

  lemma EndStays(tools: Tools, g: Graph, src: Contents, disk: Contents, listing: seq<string>, mode: Mode, k: Key)
    requires GoodTools(tools) && Consistent(tools, g, src) && Lists(listing, disk) && k in g.nodes
    ensures k in Cleared(tools, g, disk, listing, mode).nodes
            <==> g.nodes[k].filePath in disk && FateOf(tools, g, disk, mode, g.nodes[k].filePath) != Reindexed
  {
    assert NodeIsRight(tools, g, src, k);
    PathStays(tools, g, src, disk, listing, mode, g.nodes[k].filePath);
  }
}
