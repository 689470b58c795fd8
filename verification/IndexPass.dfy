/** One indexing pass over the whole repository, as a change of the graph, and why the
    incremental pass may stand in for the full one. */
module IndexPass {
  import opened Options
  import opened GraphStore
  import opened ParsedFiles

  datatype Mode = Full | Incremental

  /** What happens to one file of the walk. */
  datatype Fate = Skipped | Failed | Reindexed

  /** Contents by path: of the working tree, or of what the graph was built from. */
  type Contents = map<string, string>

  function FileKey(path: string): Key {
    Key(FileKind, path, 0)
  }

  /** `load_file_hashes(client).get(path)` */
  function StoredHash(g: Graph, path: string): Option<string> {
    if FileKey(path) in g.nodes && g.nodes[FileKey(path)].props.FileProps?
    then Some(g.nodes[FileKey(path)].props.contentHash) else None
  }

  function FateOf(tools: Tools, g: Graph, disk: Contents, mode: Mode, path: string): Fate
    requires path in disk
  {
    if mode == Incremental && StoredHash(g, path) == Some(tools.hash(disk[path])) then Skipped
    else if tools.parse(path, disk[path]).ParseError? then Failed
    else Reindexed
  }

  predicate Lists(listing: seq<string>, disk: Contents) {
    (forall i, j :: 0 <= i < j < |listing| ==> listing[i] != listing[j])
    && (forall p :: p in listing ==> p in disk) && (forall p :: p in disk ==> p in listing)
  }

  /** The paths of the walk with a given fate, in walk order. */
  function WithFate(tools: Tools, g: Graph, disk: Contents, mode: Mode, listing: seq<string>, fate: Fate): (paths: seq<string>)
    requires forall p :: p in listing ==> p in disk
    ensures forall p :: p in paths <==> p in listing && FateOf(tools, g, disk, mode, p) == fate
  {
    if listing == [] then []
    else
      var p := listing[|listing| - 1];
      assert listing == listing[..|listing| - 1] + [p];
      WithFate(tools, g, disk, mode, listing[..|listing| - 1], fate)
      + (if FateOf(tools, g, disk, mode, p) == fate then [p] else [])
  }

  function ParseAll(tools: Tools, disk: Contents, paths: seq<string>): (files: seq<ParsedFile>)
    requires forall p :: p in paths ==> p in disk && tools.parse(p, disk[p]).Parsed?
    ensures |files| == |paths| && forall i :: 0 <= i < |paths| ==> files[i] == tools.parse(paths[i], disk[paths[i]]).file
  {
    seq(|paths|, i requires 0 <= i < |paths| => tools.parse(paths[i], disk[paths[i]]).file)
  }

  /** Stored files that are gone from disk. */
  function StalePaths(g: Graph, disk: Contents): set<string> {
    set k | k in g.nodes && k.kind == FileKind && k.name !in disk :: k.name
  }

  function ChangedPaths(g: Graph, paths: seq<string>): set<string> {
    set p | p in paths && StoredHash(g, p).Some?
  }

  function BatchEdges(files: seq<ParsedFile>): set<Edge> {
    set f, e | f in files && e in ImportEdges(f) :: e
  }

  /** Writing the nodes and import edges of a batch. */
  function UpsertStructure(g: Graph, files: seq<ParsedFile>): Graph {
    MergeEdges(g.(nodes := MergeRows(g.nodes, Batches(files, WRITE_ORDER))), BatchEdges(files))
  }

  function BatchOf(tools: Tools, g: Graph, disk: Contents, listing: seq<string>, mode: Mode): seq<ParsedFile>
    requires Lists(listing, disk)
  {
    ParseAll(tools, disk, WithFate(tools, g, disk, mode, listing, Reindexed))
  }

  /** The files, entities and import edges after a pass: purge, delete what changed, upsert. */
  function StructuralPass(tools: Tools, g: Graph, disk: Contents, listing: seq<string>, mode: Mode): Graph
    requires Lists(listing, disk)
  {
    var batch := WithFate(tools, g, disk, mode, listing, Reindexed);
    var purged := DeleteSubtrees(g, StalePaths(g, disk));
    UpsertStructure(DeleteSubtrees(purged, ChangedPaths(g, batch)), BatchOf(tools, g, disk, listing, mode))
  }

  // ---------------------------------------------------------------------------
  // Consistency.
  // ---------------------------------------------------------------------------

  /** The node a file contributes at a key. */
  function OwnNode(f: ParsedFile, k: Key): Option<Node> {
    LastNode(RowsOfKind(f, k.kind), k)
  }

  ghost predicate Parses(tools: Tools, src: Contents) {
    forall p :: p in src ==> tools.parse(p, src[p]).Parsed?
  }

  function FileAt(tools: Tools, src: Contents, path: string): ParsedFile
    requires path in src && tools.parse(path, src[path]).Parsed?
  {
    tools.parse(path, src[path]).file
  }

  /** No two files contribute a node with the key `k`. */
  ghost predicate DisjointAt(tools: Tools, src: Contents, k: Key)
    requires Parses(tools, src)
  {
    forall p, q :: p in src && q in src && OwnNode(FileAt(tools, src, p), k).Some? && OwnNode(FileAt(tools, src, q), k).Some?
      ==> p == q
  }

  ghost predicate Disjoint(tools: Tools, src: Contents)
    requires Parses(tools, src)
  {
    forall k :: DisjointAt(tools, src, k)
  }

  /** At the key `k` the graph holds what the file that owns it contributes, and nothing else. */
  ghost predicate NodeIsRight(tools: Tools, g: Graph, src: Contents, k: Key)
    requires Parses(tools, src)
  {
    && (k in g.nodes ==> g.nodes[k].filePath in src
                         && OwnNode(FileAt(tools, src, g.nodes[k].filePath), k) == Some(g.nodes[k]))
    && (forall p :: p in src && OwnNode(FileAt(tools, src, p), k).Some?
          ==> NodeAt(g.nodes, k) == OwnNode(FileAt(tools, src, p), k))
  }

  ghost predicate ImportEdgesAreRight(tools: Tools, g: Graph, src: Contents)
    requires Parses(tools, src)
  {
    && (forall e :: e in g.edges && e.relation == Imports
          ==> e.dst.name in src && e in ImportEdges(FileAt(tools, src, e.dst.name)))
    && (forall p, e :: p in src && e in ImportEdges(FileAt(tools, src, p)) ==> e in g.edges)
  }

  /** Each file's nodes are exactly the entities of the content its stored hash names. */
  ghost predicate Consistent(tools: Tools, g: Graph, src: Contents) {
    Parses(tools, src) && (forall k :: NodeIsRight(tools, g, src, k)) && ImportEdgesAreRight(tools, g, src)
  }

  lemma OwnNodeFacts(f: ParsedFile, k: Key)
    ensures OwnNode(f, k).Some? ==> OwnNode(f, k).value.filePath == f.path
    ensures k.kind == FileKind ==>
              OwnNode(f, k) == if k == FileKey(f.path) then Some(Node(f.path, FileProps(f.contentHash))) else None
  {
    RowsOfKindFit(f, k.kind);
    LastNodeIsARow(RowsOfKind(f, k.kind), k);
  }

  lemma EndsOfImportEdges(f: ParsedFile, e: Edge)
    requires e in ImportEdges(f)
    ensures e.relation == Imports && e.dst.name == f.path
    ensures OwnNode(f, e.src).Some? && OwnNode(f, e.dst).Some?
  {
    var i :| 0 <= i < |f.imports| && e == Edge(Imports, Key(ModuleKind, f.home, 0), Key(ImportKind, f.path, i));
    LastNodeIsARow(RowsOfKind(f, ModuleKind), e.src);
    assert RowsOfKind(f, ModuleKind)[0].key == e.src;
    LastNodeIsARow(RowsOfKind(f, ImportKind), e.dst);
    assert RowsOfKind(f, ImportKind)[i].key == e.dst;
  }

  /** The stored hashes of a consistent graph are the hashes of the contents it was built from. */
  lemma StoredHashes(tools: Tools, g: Graph, src: Contents, path: string)
    requires GoodTools(tools) && Parses(tools, src) && NodeIsRight(tools, g, src, FileKey(path))
    ensures StoredHash(g, path) == if path in src then Some(tools.hash(src[path])) else None
    ensures FileKey(path) in g.nodes <==> path in src
  {
    var k := FileKey(path);
    if k in g.nodes {
      var p := g.nodes[k].filePath;
      OwnNodeFacts(FileAt(tools, src, p), k);
    }
    if path in src {
      OwnNodeFacts(FileAt(tools, src, path), k);
    }
  }

  /** Two consistent graphs over the same contents hold the same nodes and import edges. */
  lemma ConsistentGraphsAgree(tools: Tools, g: Graph, h: Graph, src: Contents)
    requires Consistent(tools, g, src) && Consistent(tools, h, src)
    ensures g.nodes == h.nodes
    ensures forall e: Edge :: e.relation == Imports ==> (e in g.edges <==> e in h.edges)
  {
    forall k ensures NodeAt(g.nodes, k) == NodeAt(h.nodes, k) {
      assert NodeIsRight(tools, g, src, k) && NodeIsRight(tools, h, src, k);
    }
    forall k ensures k in g.nodes <==> k in h.nodes {
      assert NodeAt(g.nodes, k) == NodeAt(h.nodes, k);
    }
    forall k | k in g.nodes ensures g.nodes[k] == h.nodes[k] {
      assert NodeAt(g.nodes, k) == NodeAt(h.nodes, k);
    }
  }

  // ---------------------------------------------------------------------------
  // What a pass leaves.
  // ---------------------------------------------------------------------------

  /** The content behind each file's nodes after a pass, in either mode: what is on disk where
      that parses, and otherwise what was indexed before. */
  function Settled(tools: Tools, src: Contents, disk: Contents): Contents {
    map p | p in disk && (tools.parse(p, disk[p]).Parsed? || p in src)
      :: if tools.parse(p, disk[p]).Parsed? then disk[p] else src[p]
  }

  lemma {:induction false} BatchNodeIsFromAFile(files: seq<ParsedFile>, k: Key)
    ensures BatchNode(files, k).Some? ==> exists i :: 0 <= i < |files| && OwnNode(files[i], k) == BatchNode(files, k)
    ensures BatchNode(files, k).None? ==> forall i :: 0 <= i < |files| ==> OwnNode(files[i], k).None?
  {
    if files != [] {
      var n := |files| - 1;
      BatchNodeIsFromAFile(files[..n], k);
      if OwnNode(files[n], k).Some? {
        assert OwnNode(files[n], k) == BatchNode(files, k);
      } else if BatchNode(files, k).Some? {
        var i :| 0 <= i < |files[..n]| && OwnNode(files[..n][i], k) == BatchNode(files[..n], k);
        assert OwnNode(files[i], k) == BatchNode(files, k);
      } else {
        forall i | 0 <= i < |files| ensures OwnNode(files[i], k).None? {
          assert i < n ==> files[..n][i] == files[i];
        }
      }
    }
  }

  /** The key `k` after writing a batch. */
  lemma NodeAfterUpsert(g: Graph, files: seq<ParsedFile>, k: Key)
    ensures NodeAt(UpsertStructure(g, files).nodes, k)
            == if BatchNode(files, k).Some? then BatchNode(files, k) else NodeAt(g.nodes, k)
  {
    LastRowWins(g.nodes, Batches(files, WRITE_ORDER), k);
    WriteOrderIsComplete(k.kind);
    BatchesNode(files, WRITE_ORDER, k);
  }

  /** The key `k` after the purge and the delete: it stays unless its file is gone from disk
      or about to be written again. */
  lemma NodeAfterDeletes(tools: Tools, g: Graph, src: Contents, disk: Contents, listing: seq<string>, mode: Mode, k: Key)
    requires GoodTools(tools) && Consistent(tools, g, src) && Lists(listing, disk)
    ensures var batch := WithFate(tools, g, disk, mode, listing, Reindexed);
            var left := DeleteSubtrees(DeleteSubtrees(g, StalePaths(g, disk)), ChangedPaths(g, batch));
            NodeAt(left.nodes, k)
            == if k in g.nodes && g.nodes[k].filePath in disk
                  && FateOf(tools, g, disk, mode, g.nodes[k].filePath) != Reindexed
               then Some(g.nodes[k]) else None
  {
    if k in g.nodes {
      var p := g.nodes[k].filePath;
      assert NodeIsRight(tools, g, src, k);
      PathStays(tools, g, src, disk, listing, mode, p);
    }
  }

  lemma PathStays(tools: Tools, g: Graph, src: Contents, disk: Contents, listing: seq<string>, mode: Mode, p: string)
    requires GoodTools(tools) && Consistent(tools, g, src) && Lists(listing, disk) && p in src
    ensures p in StalePaths(g, disk) <==> p !in disk
    ensures p in ChangedPaths(g, WithFate(tools, g, disk, mode, listing, Reindexed))
            <==> p in disk && FateOf(tools, g, disk, mode, p) == Reindexed
  {
    assert NodeIsRight(tools, g, src, FileKey(p));
    StoredHashes(tools, g, src, p);
    assert FileKey(p) in g.nodes && FileKey(p).name == p;
  }

  /** A file that is not written again settles on the content it was indexed from. */
  lemma UntouchedContent(tools: Tools, g: Graph, src: Contents, disk: Contents, mode: Mode, p: string)
    requires GoodTools(tools) && Consistent(tools, g, src) && p in disk
    ensures var fate := FateOf(tools, g, disk, mode, p);
            var settled := Settled(tools, src, disk);
            if fate == Reindexed then p in settled && settled[p] == disk[p] && tools.parse(p, disk[p]).Parsed?
            else (p in settled <==> p in src) && (p in src ==> settled[p] == src[p])
  {
    assert NodeIsRight(tools, g, src, FileKey(p));
    StoredHashes(tools, g, src, p);
  }

  lemma SettledParses(tools: Tools, src: Contents, disk: Contents)
    requires Parses(tools, src)
    ensures Parses(tools, Settled(tools, src, disk))
  {
  }

  /** Membership in the batch of a pass. */
  lemma BatchHolds(tools: Tools, g: Graph, disk: Contents, listing: seq<string>, mode: Mode, p: string)
    requires Lists(listing, disk) && p in disk && FateOf(tools, g, disk, mode, p) == Reindexed
    ensures exists i :: 0 <= i < |BatchOf(tools, g, disk, listing, mode)|
                        && BatchOf(tools, g, disk, listing, mode)[i] == tools.parse(p, disk[p]).file
  {
    var paths := WithFate(tools, g, disk, mode, listing, Reindexed);
    var i :| 0 <= i < |paths| && paths[i] == p;
    assert BatchOf(tools, g, disk, listing, mode)[i] == tools.parse(p, disk[p]).file;
  }

  lemma BatchIsReindexed(tools: Tools, g: Graph, disk: Contents, listing: seq<string>, mode: Mode, i: nat)
    requires GoodTools(tools) && Lists(listing, disk) && i < |BatchOf(tools, g, disk, listing, mode)|
    ensures var f := BatchOf(tools, g, disk, listing, mode)[i];
            f.path in disk && FateOf(tools, g, disk, mode, f.path) == Reindexed && f == tools.parse(f.path, disk[f.path]).file
  {
    var paths := WithFate(tools, g, disk, mode, listing, Reindexed);
    assert paths[i] in paths;
  }

  /** The node at `k` after a pass: the batch's, or what a file left alone had there. */
  lemma NodeEquation(tools: Tools, g: Graph, src: Contents, disk: Contents, listing: seq<string>, mode: Mode, k: Key)
    requires GoodTools(tools) && Consistent(tools, g, src) && Lists(listing, disk)
    ensures var own := BatchNode(BatchOf(tools, g, disk, listing, mode), k);
            NodeAt(StructuralPass(tools, g, disk, listing, mode).nodes, k)
            == if own.Some? then own
               else if k in g.nodes && g.nodes[k].filePath in disk
                       && FateOf(tools, g, disk, mode, g.nodes[k].filePath) != Reindexed
               then Some(g.nodes[k]) else None
  {
    var batch := WithFate(tools, g, disk, mode, listing, Reindexed);
    var left := DeleteSubtrees(DeleteSubtrees(g, StalePaths(g, disk)), ChangedPaths(g, batch));
    NodeAfterUpsert(left, BatchOf(tools, g, disk, listing, mode), k);
    NodeAfterDeletes(tools, g, src, disk, listing, mode, k);
  }

  /** A node the batch writes comes from a file of the batch, which settles on its disk content. */
  lemma OwnerOfBatchNode(tools: Tools, g: Graph, src: Contents, disk: Contents, listing: seq<string>, mode: Mode, k: Key)
    returns (p: string)
    requires GoodTools(tools) && Consistent(tools, g, src) && Lists(listing, disk)
    requires Parses(tools, Settled(tools, src, disk))
    requires BatchNode(BatchOf(tools, g, disk, listing, mode), k).Some?
    ensures p in Settled(tools, src, disk)
    ensures OwnNode(FileAt(tools, Settled(tools, src, disk), p), k) == BatchNode(BatchOf(tools, g, disk, listing, mode), k)
    ensures BatchNode(BatchOf(tools, g, disk, listing, mode), k).value.filePath == p
  {
    var files := BatchOf(tools, g, disk, listing, mode);
    BatchNodeIsFromAFile(files, k);
    var i :| 0 <= i < |files| && OwnNode(files[i], k) == BatchNode(files, k);
    BatchIsReindexed(tools, g, disk, listing, mode, i);
    p := files[i].path;
    UntouchedContent(tools, g, src, disk, mode, p);
    OwnNodeFacts(files[i], k);
  }

  /** A file of the batch has its node written, unless another file of the batch has the key. */
  lemma ReindexedNodeIsWritten(tools: Tools, g: Graph, disk: Contents, listing: seq<string>, mode: Mode, p: string, k: Key)
    requires Lists(listing, disk) && p in disk && FateOf(tools, g, disk, mode, p) == Reindexed
    requires OwnNode(tools.parse(p, disk[p]).file, k).Some?
    ensures BatchNode(BatchOf(tools, g, disk, listing, mode), k).Some?
  {
    BatchHolds(tools, g, disk, listing, mode, p);
    BatchNodeIsFromAFile(BatchOf(tools, g, disk, listing, mode), k);
  }

  /** At every key that at most one settled file owns, the pass leaves the right node. */
  lemma NodeAfterPass(tools: Tools, g: Graph, src: Contents, disk: Contents, listing: seq<string>, mode: Mode, k: Key)
    requires GoodTools(tools) && Consistent(tools, g, src) && Lists(listing, disk)
    requires Parses(tools, Settled(tools, src, disk)) && DisjointAt(tools, Settled(tools, src, disk), k)
    ensures NodeIsRight(tools, StructuralPass(tools, g, disk, listing, mode), Settled(tools, src, disk), k)
  {
    var settled := Settled(tools, src, disk);
    var after := StructuralPass(tools, g, disk, listing, mode);
    var own := BatchNode(BatchOf(tools, g, disk, listing, mode), k);
    NodeEquation(tools, g, src, disk, listing, mode, k);
    assert NodeIsRight(tools, g, src, k);
    if own.Some? {
      var p := OwnerOfBatchNode(tools, g, src, disk, listing, mode, k);
    } else {
      if k in g.nodes && g.nodes[k].filePath in disk {
        UntouchedContent(tools, g, src, disk, mode, g.nodes[k].filePath);
      }
      forall p | p in settled && OwnNode(FileAt(tools, settled, p), k).Some?
        ensures NodeAt(after.nodes, k) == OwnNode(FileAt(tools, settled, p), k)
      {
        NodeOfUntouchedFile(tools, g, src, disk, listing, mode, p, k);
      }
    }
  }

  lemma NodeOfUntouchedFile(tools: Tools, g: Graph, src: Contents, disk: Contents, listing: seq<string>, mode: Mode,
                            p: string, k: Key)
    requires GoodTools(tools) && Consistent(tools, g, src) && Lists(listing, disk)
    requires Parses(tools, Settled(tools, src, disk)) && p in Settled(tools, src, disk)
    requires BatchNode(BatchOf(tools, g, disk, listing, mode), k).None?
    requires OwnNode(FileAt(tools, Settled(tools, src, disk), p), k).Some?
    ensures NodeAt(StructuralPass(tools, g, disk, listing, mode).nodes, k)
            == OwnNode(FileAt(tools, Settled(tools, src, disk), p), k)
  {
    UntouchedContent(tools, g, src, disk, mode, p);
    if FateOf(tools, g, disk, mode, p) == Reindexed {
      ReindexedNodeIsWritten(tools, g, disk, listing, mode, p, k);
    }
    assert NodeIsRight(tools, g, src, k);
    OwnNodeFacts(FileAt(tools, src, p), k);
    NodeEquation(tools, g, src, disk, listing, mode, k);
  }

  // ---------------------------------------------------------------------------
  // Import edges.
  // ---------------------------------------------------------------------------

  /** In a consistent graph both ends of an import edge belong to the importing file. */
  lemma ImportEdgeEndsInGraph(tools: Tools, g: Graph, src: Contents, p: string, e: Edge)
    requires Consistent(tools, g, src) && p in src && e in ImportEdges(FileAt(tools, src, p))
    requires tools.parse(p, src[p]).file.path == p
    ensures e.src in g.nodes && g.nodes[e.src].filePath == p
    ensures e.dst in g.nodes && g.nodes[e.dst].filePath == p
    ensures e in g.edges
  {
    var f := FileAt(tools, src, p);
    EndsOfImportEdges(f, e);
    assert NodeIsRight(tools, g, src, e.src) && NodeIsRight(tools, g, src, e.dst);
    OwnNodeFacts(f, e.src);
    OwnNodeFacts(f, e.dst);
  }

  /** The deletes take a file's import edges exactly when they take the file. */
  lemma ImportEdgeAfterDeletes(tools: Tools, g: Graph, src: Contents, disk: Contents, listing: seq<string>, mode: Mode,
                               p: string, e: Edge)
    requires GoodTools(tools) && Consistent(tools, g, src) && Lists(listing, disk)
    requires p in src && e in ImportEdges(FileAt(tools, src, p))
    ensures var batch := WithFate(tools, g, disk, mode, listing, Reindexed);
            var left := DeleteSubtrees(DeleteSubtrees(g, StalePaths(g, disk)), ChangedPaths(g, batch));
            e in left.edges <==> p in disk && FateOf(tools, g, disk, mode, p) != Reindexed
  {
    ImportEdgeEndsInGraph(tools, g, src, p, e);
    PathStays(tools, g, src, disk, listing, mode, p);
  }

  lemma OldImportEdgesAreRight(tools: Tools, g: Graph, src: Contents, disk: Contents, listing: seq<string>, mode: Mode, e: Edge)
    requires GoodTools(tools) && Consistent(tools, g, src) && Lists(listing, disk)
    requires Parses(tools, Settled(tools, src, disk)) && e.relation == Imports
    requires var batch := WithFate(tools, g, disk, mode, listing, Reindexed);
             e in DeleteSubtrees(DeleteSubtrees(g, StalePaths(g, disk)), ChangedPaths(g, batch)).edges
    ensures e.dst.name in Settled(tools, src, disk)
            && e in ImportEdges(FileAt(tools, Settled(tools, src, disk), e.dst.name))
  {
    assert e in g.edges;
    var p := e.dst.name;
    ImportEdgeAfterDeletes(tools, g, src, disk, listing, mode, p, e);
    UntouchedContent(tools, g, src, disk, mode, p);
  }

  lemma NewImportEdgesAreRight(tools: Tools, g: Graph, src: Contents, disk: Contents, listing: seq<string>, mode: Mode, e: Edge)
    requires GoodTools(tools) && Consistent(tools, g, src) && Lists(listing, disk)
    requires Parses(tools, Settled(tools, src, disk))
    requires e in BatchEdges(BatchOf(tools, g, disk, listing, mode))
    ensures e.dst.name in Settled(tools, src, disk)
            && e in ImportEdges(FileAt(tools, Settled(tools, src, disk), e.dst.name))
  {
    var files := BatchOf(tools, g, disk, listing, mode);
    var f :| f in files && e in ImportEdges(f);
    var i :| 0 <= i < |files| && files[i] == f;
    BatchIsReindexed(tools, g, disk, listing, mode, i);
    EndsOfImportEdges(f, e);
    UntouchedContent(tools, g, src, disk, mode, f.path);
  }

  lemma SettledImportEdgesArePresent(tools: Tools, g: Graph, src: Contents, disk: Contents, listing: seq<string>, mode: Mode,
                                     p: string, e: Edge)
    requires GoodTools(tools) && Consistent(tools, g, src) && Lists(listing, disk)
    requires Parses(tools, Settled(tools, src, disk)) && Disjoint(tools, Settled(tools, src, disk))
    requires p in Settled(tools, src, disk) && e in ImportEdges(FileAt(tools, Settled(tools, src, disk), p))
    ensures e in StructuralPass(tools, g, disk, listing, mode).edges
  {
    UntouchedContent(tools, g, src, disk, mode, p);
    if FateOf(tools, g, disk, mode, p) == Reindexed {
      BatchHolds(tools, g, disk, listing, mode, p);
      EndsOfImportEdges(tools.parse(p, disk[p]).file, e);
      NodeAfterPass(tools, g, src, disk, listing, mode, e.src);
      NodeAfterPass(tools, g, src, disk, listing, mode, e.dst);
      assert e in BatchEdges(BatchOf(tools, g, disk, listing, mode));
    } else {
      ImportEdgeAfterDeletes(tools, g, src, disk, listing, mode, p, e);
    }
  }

  // ---------------------------------------------------------------------------
  // Theorems.
  // ---------------------------------------------------------------------------

  /** Every pass keeps the graph consistent, in either mode, whenever no two files settle on
      entities with the same key. The contents it is consistent with do not depend on the mode. */
  lemma PassKeepsConsistency(tools: Tools, g: Graph, src: Contents, disk: Contents, listing: seq<string>, mode: Mode)
    requires GoodTools(tools) && Consistent(tools, g, src) && Lists(listing, disk)
    requires Parses(tools, Settled(tools, src, disk)) && Disjoint(tools, Settled(tools, src, disk))
    ensures Consistent(tools, StructuralPass(tools, g, disk, listing, mode), Settled(tools, src, disk))
  {
    var settled := Settled(tools, src, disk);
    var after := StructuralPass(tools, g, disk, listing, mode);
    forall k ensures NodeIsRight(tools, after, settled, k) {
      NodeAfterPass(tools, g, src, disk, listing, mode, k);
    }
    forall e | e in after.edges && e.relation == Imports
      ensures e.dst.name in settled && e in ImportEdges(FileAt(tools, settled, e.dst.name))
    {
      if e in BatchEdges(BatchOf(tools, g, disk, listing, mode)) {
        NewImportEdgesAreRight(tools, g, src, disk, listing, mode, e);
      } else {
        OldImportEdgesAreRight(tools, g, src, disk, listing, mode, e);
      }
    }
    forall p, e | p in settled && e in ImportEdges(FileAt(tools, settled, p)) ensures e in after.edges {
      SettledImportEdgesArePresent(tools, g, src, disk, listing, mode, p, e);
    }
  }

  /** The incremental pass and the full pass leave the same files, entities and import edges. */
  lemma IncrementalEqualsFull(tools: Tools, g: Graph, src: Contents, disk: Contents,
                              listing: seq<string>, otherListing: seq<string>)
    requires GoodTools(tools) && Consistent(tools, g, src) && Lists(listing, disk) && Lists(otherListing, disk)
    requires Parses(tools, Settled(tools, src, disk)) && Disjoint(tools, Settled(tools, src, disk))
    ensures var incremental := StructuralPass(tools, g, disk, listing, Incremental);
            var full := StructuralPass(tools, g, disk, otherListing, Full);
            incremental.nodes == full.nodes
            && forall e: Edge :: e.relation == Imports ==> (e in incremental.edges <==> e in full.edges)
  {
    PassKeepsConsistency(tools, g, src, disk, listing, Incremental);
    PassKeepsConsistency(tools, g, src, disk, otherListing, Full);
    ConsistentGraphsAgree(tools, StructuralPass(tools, g, disk, listing, Incremental),
                          StructuralPass(tools, g, disk, otherListing, Full), Settled(tools, src, disk));
  }

  /** The hypothesis is exactly what is needed: after a pass the graph is consistent with some
      contents if and only if no two settled files contribute a node with the same key. */
  lemma ConsistentExactlyWhenKeysAreDistinct(tools: Tools, g: Graph, src: Contents, disk: Contents,
                                             listing: seq<string>, mode: Mode)
    requires GoodTools(tools) && Consistent(tools, g, src) && Lists(listing, disk)
    ensures Parses(tools, Settled(tools, src, disk))
    ensures (exists built :: Consistent(tools, StructuralPass(tools, g, disk, listing, mode), built))
            <==> Disjoint(tools, Settled(tools, src, disk))
  {
    var settled := Settled(tools, src, disk);
    var after := StructuralPass(tools, g, disk, listing, mode);
    SettledParses(tools, src, disk);
    if Disjoint(tools, settled) {
      PassKeepsConsistency(tools, g, src, disk, listing, mode);
    }
    if built :| Consistent(tools, after, built) {
      BuiltContentsAreSettled(tools, g, src, disk, listing, mode, built);
      forall k ensures DisjointAt(tools, settled, k) {
        assert NodeIsRight(tools, after, settled, k);
        OwnersAreUnique(tools, after, settled, k);
      }
    }
  }

  lemma OwnersAreUnique(tools: Tools, g: Graph, src: Contents, k: Key)
    requires GoodTools(tools) && Parses(tools, src) && NodeIsRight(tools, g, src, k)
    ensures DisjointAt(tools, src, k)
  {
    forall p | p in src ensures OwnNode(FileAt(tools, src, p), k).Some? ==> OwnNode(FileAt(tools, src, p), k).value.filePath == p {
      OwnNodeFacts(FileAt(tools, src, p), k);
    }
  }

  /** The file table after a pass names the settled contents, whatever else collides. */
  lemma BuiltContentsAreSettled(tools: Tools, g: Graph, src: Contents, disk: Contents, listing: seq<string>, mode: Mode,
                                built: Contents)
    requires GoodTools(tools) && Consistent(tools, g, src) && Lists(listing, disk)
    requires Consistent(tools, StructuralPass(tools, g, disk, listing, mode), built)
    ensures built == Settled(tools, src, disk)
  {
    hide Settled, StructuralPass, Lists, DisjointAt, GoodTools, NodeIsRight, Consistent;
    forall p ensures (p in built <==> p in Settled(tools, src, disk)) && (p in built ==> built[p] == Settled(tools, src, disk)[p]) {
      BuiltContentIsSettled(tools, g, src, disk, listing, mode, built, p);
    }
  }

  lemma BuiltContentIsSettled(tools: Tools, g: Graph, src: Contents, disk: Contents, listing: seq<string>, mode: Mode,
                              built: Contents, p: string)
    requires GoodTools(tools) && Consistent(tools, g, src) && Lists(listing, disk)
    requires Consistent(tools, StructuralPass(tools, g, disk, listing, mode), built)
    ensures var settled := Settled(tools, src, disk);
            (p in built <==> p in settled) && (p in built ==> built[p] == settled[p])
  {
    hide Settled, StructuralPass, Lists, DisjointAt, GoodTools, NodeIsRight;
    SettledParses(tools, src, disk);
    FileKeysNeverCollide(tools, Settled(tools, src, disk), p);
    NodeAfterPass(tools, g, src, disk, listing, mode, FileKey(p));
    SameStoredHash(tools, StructuralPass(tools, g, disk, listing, mode), Settled(tools, src, disk), built, p);
  }

  lemma SameStoredHash(tools: Tools, g: Graph, settled: Contents, built: Contents, p: string)
    requires GoodTools(tools) && Parses(tools, settled) && NodeIsRight(tools, g, settled, FileKey(p)) && Consistent(tools, g, built)
    ensures (p in built <==> p in settled) && (p in built ==> built[p] == settled[p])
  {
    StoredHashes(tools, g, settled, p);
    assert NodeIsRight(tools, g, built, FileKey(p));
    StoredHashes(tools, g, built, p);
  }

  lemma FileKeysNeverCollide(tools: Tools, src: Contents, path: string)
    requires GoodTools(tools) && Parses(tools, src)
    ensures DisjointAt(tools, src, FileKey(path))
  {
    forall p | p in src ensures OwnNode(FileAt(tools, src, p), FileKey(path)).Some? ==> p == path {
      OwnNodeFacts(FileAt(tools, src, p), FileKey(path));
    }
  }

  /** When everything on disk parses, a second incremental pass skips every file and leaves
      the whole graph as it is. */
  lemma SecondPassIndexesNothing(tools: Tools, g: Graph, src: Contents, disk: Contents,
                                 listing: seq<string>, mode: Mode, again: seq<string>)
    requires GoodTools(tools) && Consistent(tools, g, src) && Lists(listing, disk) && Lists(again, disk)
    requires Parses(tools, disk) && Disjoint(tools, disk)
    ensures var after := StructuralPass(tools, g, disk, listing, mode);
            forall p :: p in disk ==> FateOf(tools, after, disk, Incremental, p) == Skipped
    ensures var after := StructuralPass(tools, g, disk, listing, mode);
            StructuralPass(tools, after, disk, again, Incremental) == after
  {
    SettledIsTheDisk(tools, src, disk);
    PassKeepsConsistency(tools, g, src, disk, listing, mode);
    hide GoodTools, Consistent, Disjoint, Settled, StructuralPass, Lists;
    NothingIsDue(tools, StructuralPass(tools, g, disk, listing, mode), disk);
    IdlePass(tools, StructuralPass(tools, g, disk, listing, mode), disk, again);
  }

  lemma SettledIsTheDisk(tools: Tools, src: Contents, disk: Contents)
    requires Parses(tools, disk)
    ensures Settled(tools, src, disk) == disk
  {
  }

  /** A graph consistent with the tree has every file skipped and none stale. */
  lemma NothingIsDue(tools: Tools, g: Graph, disk: Contents)
    requires GoodTools(tools) && Consistent(tools, g, disk)
    ensures forall p :: p in disk ==> FateOf(tools, g, disk, Incremental, p) == Skipped
    ensures StalePaths(g, disk) == {}
  {
    forall p | p in disk ensures FateOf(tools, g, disk, Incremental, p) == Skipped {
      assert NodeIsRight(tools, g, disk, FileKey(p));
      StoredHashes(tools, g, disk, p);
    }
    forall k | k in g.nodes && k.kind == FileKind ensures k.name in disk {
      assert NodeIsRight(tools, g, disk, k);
      OwnNodeFacts(FileAt(tools, disk, g.nodes[k].filePath), k);
    }
  }

  lemma IdlePass(tools: Tools, g: Graph, disk: Contents, listing: seq<string>)
    requires Lists(listing, disk) && StalePaths(g, disk) == {}
    requires forall p :: p in disk ==> FateOf(tools, g, disk, Incremental, p) == Skipped
    ensures StructuralPass(tools, g, disk, listing, Incremental) == g
  {
    var batch := WithFate(tools, g, disk, Incremental, listing, Reindexed);
    assert forall p :: p !in batch;
    assert ChangedPaths(g, batch) == {};
    DeletingNothing(g);
    WritingNothing(g);
  }

  lemma DeletingNothing(g: Graph)
    ensures DeleteSubtrees(g, {}) == g
  {
  }

  lemma WritingNothing(g: Graph)
    ensures UpsertStructure(g, []) == g
  {
    EmptyBatches(WRITE_ORDER);
    assert BatchEdges([]) == {};
  }

  lemma {:induction false} EmptyBatches(kinds: seq<Kind>)
    ensures Batches([], kinds) == []
  {
    if kinds != [] {
      EmptyBatches(kinds[..|kinds| - 1]);
    }
  }

  /** A file that moves keeps its entities: after the pass they belong to the new path and
      nothing belongs to the old one. */
  lemma MovedFileKeepsItsEntities(tools: Tools, g: Graph, src: Contents, disk: Contents, listing: seq<string>, mode: Mode,
                                  oldPath: string, newPath: string, k: Key)
    requires GoodTools(tools) && Consistent(tools, g, src) && Lists(listing, disk)
    requires Parses(tools, Settled(tools, src, disk)) && Disjoint(tools, Settled(tools, src, disk))
    requires oldPath in src && oldPath !in disk && newPath in disk && tools.parse(newPath, disk[newPath]).Parsed?
    ensures var after := StructuralPass(tools, g, disk, listing, mode);
            var f := tools.parse(newPath, disk[newPath]).file;
            (OwnNode(f, k).Some? ==> NodeAt(after.nodes, k) == OwnNode(f, k))
            && (k in after.nodes ==> after.nodes[k].filePath != oldPath)
  {
    var settled := Settled(tools, src, disk);
    assert newPath in settled && FileAt(tools, settled, newPath) == tools.parse(newPath, disk[newPath]).file;
    NodeAfterPass(tools, g, src, disk, listing, mode, k);
  }
}
