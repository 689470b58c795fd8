/** Which CALLS and INHERITS_FROM edges an incremental pass leaves out that a full pass would
    write, and which it keeps that a full pass would drop. */
module EdgeLoss {
  import opened NameResolution
  import opened GraphStore
  import opened ParsedFiles
  import opened IndexPass
  import opened NameIndexes
  import opened EdgeRows
  import opened Indexer

  /** A file's references give the edge. */
  ghost predicate Emits(calls: Tables, bases: Tables, f: ParsedFile, e: Edge) {
    e in InheritEdges(InheritRows(bases, f, |f.classes|)) || e in CallEdges(CallRows(calls, f, |f.calls|))
  }

  lemma EdgesOfBoth(a: seq<Link>, b: seq<Link>)
    ensures InheritEdges(a + b) == InheritEdges(a) + InheritEdges(b)
    ensures CallEdges(a + b) == CallEdges(a) + CallEdges(b)
  {
    assert forall r :: r in a + b <==> r in a || r in b;
    assert forall e :: e in InheritEdges(a + b) <==> e in InheritEdges(a) || e in InheritEdges(b);
    assert forall e :: e in CallEdges(a + b) <==> e in CallEdges(a) || e in CallEdges(b);
  }

  /** A batch's rows give the edges of its files. */
  lemma {:induction false} BatchEmits(calls: Tables, bases: Tables, files: seq<ParsedFile>, n: nat, e: Edge)
    requires n <= |files|
    ensures e in InheritEdges(BatchInheritRows(bases, files, n)) || e in CallEdges(BatchCallRows(calls, files, n))
            <==> exists i :: 0 <= i < n && Emits(calls, bases, files[i], e)
  {
    hide InheritEdges, CallEdges, InheritRows, CallRows;
    if n == 0 {
      NoRowsNoEdges();
    } else {
      BatchEmits(calls, bases, files, n - 1, e);
      var f := files[n - 1];
      EdgesOfBoth(BatchInheritRows(bases, files, n - 1), InheritRows(bases, f, |f.classes|));
      EdgesOfBoth(BatchCallRows(calls, files, n - 1), CallRows(calls, f, |f.calls|));
    }
  }

  lemma NoRowsNoEdges()
    ensures InheritEdges([]) == {} && CallEdges([]) == {}
  {
  }

  // ---------------------------------------------------------------------------
  // The edges after a pass.
  // ---------------------------------------------------------------------------

  ghost predicate NoDangling(g: Graph) {
    forall e :: e in g.edges ==> e.src in g.nodes && e.dst in g.nodes
  }

  /** The graph after a pass that resolved its batch with these tables. */
  function AfterPass(tools: Tools, g: Graph, disk: Contents, listing: seq<string>, mode: Mode, calls: Tables, bases: Tables): Graph
    requires Lists(listing, disk)
  {
    WithReferences(StructuralPass(tools, g, disk, listing, mode), BatchOf(tools, g, disk, listing, mode), calls, bases)
  }

  /** The edge was there, and the files of both its ends are left alone. */
  ghost predicate Survives(tools: Tools, g: Graph, disk: Contents, mode: Mode, e: Edge) {
    e in g.edges
    && forall end :: end in {e.src, e.dst} ==>
         end in g.nodes && g.nodes[end].filePath in disk && FateOf(tools, g, disk, mode, g.nodes[end].filePath) != Reindexed
  }

  /** Some file of the given fate gives the edge. */
  ghost predicate EmittedWithFate(tools: Tools, g: Graph, disk: Contents, mode: Mode, fate: Fate, calls: Tables, bases: Tables, e: Edge) {
    exists p :: p in disk && FateOf(tools, g, disk, mode, p) == fate && tools.parse(p, disk[p]).Parsed?
                && Emits(calls, bases, tools.parse(p, disk[p]).file, e)
  }

  lemma BatchEmitsExactly(
    tools: Tools, g: Graph, disk: Contents, listing: seq<string>, mode: Mode, calls: Tables, bases: Tables, e: Edge)
    requires GoodTools(tools) && Lists(listing, disk)
    ensures var files := BatchOf(tools, g, disk, listing, mode);
            e in InheritEdges(BatchInheritRows(bases, files, |files|)) || e in CallEdges(BatchCallRows(calls, files, |files|))
            <==> EmittedWithFate(tools, g, disk, mode, Reindexed, calls, bases, e)
  {
    hide GoodTools, BatchOf, Lists, Emits;
    var files := BatchOf(tools, g, disk, listing, mode);
    BatchEmits(calls, bases, files, |files|, e);
    if i :| 0 <= i < |files| && Emits(calls, bases, files[i], e) {
      BatchIsReindexed(tools, g, disk, listing, mode, i);
    }
    if EmittedWithFate(tools, g, disk, mode, Reindexed, calls, bases, e) {
      var p :| p in disk && FateOf(tools, g, disk, mode, p) == Reindexed && tools.parse(p, disk[p]).Parsed?
               && Emits(calls, bases, tools.parse(p, disk[p]).file, e);
      BatchHolds(tools, g, disk, listing, mode, p);
    }
  }

  /** After a pass an edge between entities is there exactly when it survived the deletes, or a
      re-indexed file gives it and both its ends are there. */
  lemma EdgesAfterPass(
    tools: Tools, g: Graph, src: Contents, disk: Contents, listing: seq<string>, mode: Mode,
    calls: Tables, bases: Tables, e: Edge)
    requires GoodTools(tools) && Consistent(tools, g, src) && Lists(listing, disk)
    requires NoDangling(g) && e.relation != Imports
    ensures var after := AfterPass(tools, g, disk, listing, mode, calls, bases);
            e in after.edges
            <==> Survives(tools, g, disk, mode, e)
                 || (EmittedWithFate(tools, g, disk, mode, Reindexed, calls, bases, e) && e.src in after.nodes && e.dst in after.nodes)
  {
    BatchEmitsExactly(tools, g, disk, listing, mode, calls, bases, e);
    SurvivesTheStructuralPass(tools, g, src, disk, listing, mode, e);
    hide GoodTools, Consistent, Lists, StructuralPass, BatchOf, NoDangling, Survives, EmittedWithFate, InheritEdges, CallEdges;
  }

  lemma SurvivesTheStructuralPass(tools: Tools, g: Graph, src: Contents, disk: Contents, listing: seq<string>, mode: Mode, e: Edge)
    requires GoodTools(tools) && Consistent(tools, g, src) && Lists(listing, disk)
    requires NoDangling(g) && e.relation != Imports
    ensures e in StructuralPass(tools, g, disk, listing, mode).edges <==> Survives(tools, g, disk, mode, e)
  {
    hide StructuralPass, GoodTools, Consistent, Lists;
    OnlyImportEdgesAreStructural(tools, g, disk, listing, mode, e);
    if e in g.edges {
      EdgeSurvivesExactlyBetweenUntouchedFiles(tools, g, src, disk, listing, mode, e);
    }
  }

  /** No pass leaves an edge without its ends. */
  lemma PassLeavesNoDangling(
    tools: Tools, g: Graph, disk: Contents, listing: seq<string>, mode: Mode, calls: Tables, bases: Tables)
    requires NoDangling(g) && Lists(listing, disk)
    ensures NoDangling(AfterPass(tools, g, disk, listing, mode, calls, bases))
  {
    DeletesLeaveNoDangling(g, StalePaths(g, disk));
    var purged := DeleteSubtrees(g, StalePaths(g, disk));
    var batch := WithFate(tools, g, disk, mode, listing, Reindexed);
    DeletesLeaveNoDangling(purged, ChangedPaths(g, batch));
    MergesKeepNodes(DeleteSubtrees(purged, ChangedPaths(g, batch)).nodes, Batches(BatchOf(tools, g, disk, listing, mode), WRITE_ORDER));
    hide DeleteSubtrees, InheritEdges, CallEdges, BatchEdges, BatchOf, MergeRows;
  }

  lemma MergesKeepNodes(nodes: map<Key, Node>, rows: seq<Row>)
    ensures forall k :: k in nodes ==> k in MergeRows(nodes, rows)
  {
    forall k | k in nodes ensures k in MergeRows(nodes, rows) {
      LastRowWins(nodes, rows, k);
    }
  }

  lemma DeletesLeaveNoDangling(g: Graph, paths: set<string>)
    requires NoDangling(g)
    ensures NoDangling(DeleteSubtrees(g, paths))
  {
  }

  // ---------------------------------------------------------------------------
  // Incremental against full.
  // ---------------------------------------------------------------------------

  /** The tables of a pass that had something to write fit what it wrote. */
  ghost predicate Fitted(
    tools: Tools, g: Graph, src: Contents, disk: Contents, listing: seq<string>, mode: Mode, calls: Tables, bases: Tables)
    requires Lists(listing, disk) && Parses(tools, Settled(tools, src, disk))
  {
    var after := StructuralPass(tools, g, disk, listing, mode);
    BatchOf(tools, g, disk, listing, mode) != [] ==>
      TablesFit(calls, tools, after, Settled(tools, src, disk), CALLABLES)
      && TablesFit(bases, tools, after, Settled(tools, src, disk), {ClassKind})
  }

  /** A file that an incremental pass re-indexes gives the same edges in both passes. */
  lemma SameEdgesInBothModes(
    tools: Tools, g: Graph, src: Contents, disk: Contents, listing: seq<string>, otherListing: seq<string>,
    calls: Tables, bases: Tables, fullCalls: Tables, fullBases: Tables, p: string, e: Edge)
    requires Sound(tools, g, src, disk) && Lists(listing, disk) && Lists(otherListing, disk)
    requires Fitted(tools, g, src, disk, listing, Incremental, calls, bases)
    requires Fitted(tools, g, src, disk, otherListing, Full, fullCalls, fullBases)
    requires p in disk && FateOf(tools, g, disk, Incremental, p) == Reindexed
    ensures Emits(calls, bases, tools.parse(p, disk[p]).file, e) <==> Emits(fullCalls, fullBases, tools.parse(p, disk[p]).file, e)
  {
    assert FateOf(tools, g, disk, Full, p) == Reindexed;
    BatchHolds(tools, g, disk, listing, Incremental, p);
    BatchHolds(tools, g, disk, otherListing, Full, p);
    assert p in Settled(tools, src, disk) && FileAt(tools, Settled(tools, src, disk), p) == tools.parse(p, disk[p]).file;
    hide StructuralPass, BatchOf, Settled, Lists, TablesFit, Disjoint, Consistent;
    EmittedRowsDoNotDependOnTheMode(tools, g, src, disk, listing, otherListing, calls, bases, fullCalls, fullBases, p);
  }

  lemma SameEmissions(
    tools: Tools, g: Graph, src: Contents, disk: Contents, listing: seq<string>, otherListing: seq<string>,
    calls: Tables, bases: Tables, fullCalls: Tables, fullBases: Tables, e: Edge)
    requires Sound(tools, g, src, disk) && Lists(listing, disk) && Lists(otherListing, disk)
    requires Fitted(tools, g, src, disk, listing, Incremental, calls, bases)
    requires Fitted(tools, g, src, disk, otherListing, Full, fullCalls, fullBases)
    ensures EmittedWithFate(tools, g, disk, Incremental, Reindexed, calls, bases, e)
            <==> EmittedWithFate(tools, g, disk, Incremental, Reindexed, fullCalls, fullBases, e)
    ensures EmittedWithFate(tools, g, disk, Full, Reindexed, fullCalls, fullBases, e)
            <==> EmittedWithFate(tools, g, disk, Incremental, Reindexed, fullCalls, fullBases, e)
                 || EmittedWithFate(tools, g, disk, Incremental, Skipped, fullCalls, fullBases, e)
  {
    hide Sound, Fitted, Lists, Emits;
    forall p | p in disk && FateOf(tools, g, disk, Incremental, p) == Reindexed
      ensures Emits(calls, bases, tools.parse(p, disk[p]).file, e) <==> Emits(fullCalls, fullBases, tools.parse(p, disk[p]).file, e)
    {
      SameEdgesInBothModes(tools, g, src, disk, listing, otherListing, calls, bases, fullCalls, fullBases, p, e);
    }
  }

  /** The two passes from one graph: an edge of the full pass is missing after the incremental one
      exactly when only skipped files give it and it did not survive: it was not there, or the
      file of one of its ends is gone or re-indexed. And an edge is left over exactly when it
      survived though a full pass would have taken it and no file of the tree gives it. */
  lemma WhatTheIncrementalPassLoses(
    tools: Tools, g: Graph, src: Contents, disk: Contents, listing: seq<string>, otherListing: seq<string>,
    calls: Tables, bases: Tables, fullCalls: Tables, fullBases: Tables, e: Edge)
    requires Sound(tools, g, src, disk) && Lists(listing, disk) && Lists(otherListing, disk)
    requires Fitted(tools, g, src, disk, listing, Incremental, calls, bases)
    requires Fitted(tools, g, src, disk, otherListing, Full, fullCalls, fullBases)
    requires NoDangling(g) && e.relation != Imports
    ensures var incremental := AfterPass(tools, g, disk, listing, Incremental, calls, bases);
            var full := AfterPass(tools, g, disk, otherListing, Full, fullCalls, fullBases);
            && (e in full.edges && e !in incremental.edges
                <==> e.src in full.nodes && e.dst in full.nodes
                     && EmittedWithFate(tools, g, disk, Incremental, Skipped, fullCalls, fullBases, e)
                     && !EmittedWithFate(tools, g, disk, Incremental, Reindexed, fullCalls, fullBases, e)
                     && !Survives(tools, g, disk, Incremental, e))
            && (e in incremental.edges && e !in full.edges
                <==> Survives(tools, g, disk, Incremental, e) && !Survives(tools, g, disk, Full, e)
                     && !EmittedWithFate(tools, g, disk, Full, Reindexed, fullCalls, fullBases, e))
  {
    EdgesAfterPass(tools, g, src, disk, listing, Incremental, calls, bases, e);
    EdgesAfterPass(tools, g, src, disk, otherListing, Full, fullCalls, fullBases, e);
    SameEmissions(tools, g, src, disk, listing, otherListing, calls, bases, fullCalls, fullBases, e);
    SameNodesInBothModes(tools, g, src, disk, listing, otherListing, calls, bases, fullCalls, fullBases);
    FullSurvivorsSurvive(tools, g, disk, e);
    PassLeavesNoDangling(tools, g, disk, listing, Incremental, calls, bases);
    hide AfterPass, Sound, Fitted, Lists, Survives, EmittedWithFate;
  }

  /** The file of the entity is gone or re-indexed. */
  predicate IsTouched(tools: Tools, g: Graph, disk: Contents, mode: Mode, end: Key)
    requires end in g.nodes
  {
    var path := g.nodes[end].filePath;
    path !in disk || FateOf(tools, g, disk, mode, path) == Reindexed
  }

  lemma SurvivesUntouched(tools: Tools, g: Graph, disk: Contents, mode: Mode, e: Edge)
    requires NoDangling(g) && e in g.edges
    ensures Survives(tools, g, disk, mode, e) <==> !IsTouched(tools, g, disk, mode, e.src) && !IsTouched(tools, g, disk, mode, e.dst)
  {
    assert e.src in {e.src, e.dst} && e.dst in {e.src, e.dst};
  }

  /** Of the edges a graph has and a full pass keeps, an incremental pass loses exactly those with
      an end whose file is gone or re-indexed and that no re-indexed file gives. */
  lemma LostEdges(
    tools: Tools, g: Graph, src: Contents, disk: Contents, listing: seq<string>, otherListing: seq<string>,
    calls: Tables, bases: Tables, fullCalls: Tables, fullBases: Tables, e: Edge)
    requires Sound(tools, g, src, disk) && Lists(listing, disk) && Lists(otherListing, disk)
    requires Fitted(tools, g, src, disk, listing, Incremental, calls, bases)
    requires Fitted(tools, g, src, disk, otherListing, Full, fullCalls, fullBases)
    requires NoDangling(g) && e.relation != Imports
    requires e in g.edges && e in AfterPass(tools, g, disk, otherListing, Full, fullCalls, fullBases).edges
    ensures e !in AfterPass(tools, g, disk, listing, Incremental, calls, bases).edges
            <==> (IsTouched(tools, g, disk, Incremental, e.src) || IsTouched(tools, g, disk, Incremental, e.dst))
                 && !EmittedWithFate(tools, g, disk, Incremental, Reindexed, calls, bases, e)
  {
    hide AfterPass, Fitted, Lists, GoodTools, Consistent, Disjoint, Settled, EmittedWithFate, Survives, IsTouched;
    EdgesAfterPass(tools, g, src, disk, listing, Incremental, calls, bases, e);
    SameNodesInBothModes(tools, g, src, disk, listing, otherListing, calls, bases, fullCalls, fullBases);
    PassLeavesNoDangling(tools, g, disk, otherListing, Full, fullCalls, fullBases);
    SurvivesUntouched(tools, g, disk, Incremental, e);
  }

  lemma FullSurvivorsSurvive(tools: Tools, g: Graph, disk: Contents, e: Edge)
    ensures Survives(tools, g, disk, Full, e) ==> Survives(tools, g, disk, Incremental, e)
  {
  }

  lemma SameNodesInBothModes(
    tools: Tools, g: Graph, src: Contents, disk: Contents, listing: seq<string>, otherListing: seq<string>,
    calls: Tables, bases: Tables, fullCalls: Tables, fullBases: Tables)
    requires Sound(tools, g, src, disk) && Lists(listing, disk) && Lists(otherListing, disk)
    ensures AfterPass(tools, g, disk, listing, Incremental, calls, bases).nodes
            == AfterPass(tools, g, disk, otherListing, Full, fullCalls, fullBases).nodes
  {
    PassKeepsConsistency(tools, g, src, disk, listing, Incremental);
    PassKeepsConsistency(tools, g, src, disk, otherListing, Full);
    hide StructuralPass, Settled, Consistent, Lists;
    ConsistentGraphsAgree(tools, StructuralPass(tools, g, disk, listing, Incremental),
                          StructuralPass(tools, g, disk, otherListing, Full), Settled(tools, src, disk));
  }
}
