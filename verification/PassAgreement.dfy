/** When an incremental pass and a full pass leave the same files and entities. */
module PassAgreement {
  import opened Options
  import opened GraphStore
  import opened ParsedFiles
  import opened IndexPass

  /** No two files of the tree that parse contribute a node with the same key. */
  ghost predicate ParsedKeysAreDistinct(tools: Tools, disk: Contents) {
    forall p, q, k :: p in disk && q in disk && Contributes(tools, disk, p, k) && Contributes(tools, disk, q, k) ==> p == q
  }

  predicate Contributes(tools: Tools, disk: Contents, p: string, k: Key)
    requires p in disk
  {
    tools.parse(p, disk[p]).Parsed? && OwnNode(tools.parse(p, disk[p]).file, k).Some?
  }

  /** The two modes leave the same nodes, in whatever order either walks the tree. */
  ghost predicate ModesAgree(tools: Tools, g: Graph, disk: Contents) {
    forall listing: seq<string>, otherListing: seq<string> :: Lists(listing, disk) && Lists(otherListing, disk) ==>
      StructuralPass(tools, g, disk, listing, Incremental).nodes == StructuralPass(tools, g, disk, otherListing, Full).nodes
  }

  /** What the batch writes at a key is what some file of it contributes. */
  lemma BatchNodeOwner(tools: Tools, g: Graph, disk: Contents, listing: seq<string>, mode: Mode, k: Key) returns (p: string)
    requires GoodTools(tools) && Lists(listing, disk)
    requires BatchNode(BatchOf(tools, g, disk, listing, mode), k).Some?
    ensures p in disk && FateOf(tools, g, disk, mode, p) == Reindexed && Contributes(tools, disk, p, k)
    ensures BatchNode(BatchOf(tools, g, disk, listing, mode), k) == OwnNode(tools.parse(p, disk[p]).file, k)
  {
    var files := BatchOf(tools, g, disk, listing, mode);
    BatchNodeIsFromAFile(files, k);
    var i :| 0 <= i < |files| && OwnNode(files[i], k) == BatchNode(files, k);
    BatchIsReindexed(tools, g, disk, listing, mode, i);
    p := files[i].path;
  }

  /** Where one file contributes a key, each mode leaves there what it contributes. */
  lemma ContributedNode(tools: Tools, g: Graph, src: Contents, disk: Contents, listing: seq<string>, mode: Mode, p: string, k: Key)
    requires GoodTools(tools) && Consistent(tools, g, src) && Lists(listing, disk) && ParsedKeysAreDistinct(tools, disk)
    requires p in disk && Contributes(tools, disk, p, k)
    ensures NodeAt(StructuralPass(tools, g, disk, listing, mode).nodes, k) == OwnNode(tools.parse(p, disk[p]).file, k)
  {
    NodeEquation(tools, g, src, disk, listing, mode, k);
    if BatchNode(BatchOf(tools, g, disk, listing, mode), k).Some? {
      var q := BatchNodeOwner(tools, g, disk, listing, mode, k);
    } else {
      if FateOf(tools, g, disk, mode, p) == Reindexed {
        ReindexedNodeIsWritten(tools, g, disk, listing, mode, p, k);
      }
      SkippedIsUnchanged(tools, g, src, disk, mode, p);
      assert NodeIsRight(tools, g, src, k);
      OwnNodeFacts(tools.parse(p, disk[p]).file, k);
    }
  }

  lemma SkippedIsUnchanged(tools: Tools, g: Graph, src: Contents, disk: Contents, mode: Mode, p: string)
    requires GoodTools(tools) && Consistent(tools, g, src) && p in disk
    ensures FateOf(tools, g, disk, mode, p) == Skipped ==> p in src && src[p] == disk[p]
  {
    assert NodeIsRight(tools, g, src, FileKey(p));
    StoredHashes(tools, g, src, p);
  }

  /** Where none does, each mode leaves what a file that does not parse had there. */
  lemma UncontributedNode(tools: Tools, g: Graph, src: Contents, disk: Contents, listing: seq<string>, mode: Mode, k: Key)
    requires GoodTools(tools) && Consistent(tools, g, src) && Lists(listing, disk)
    requires forall p :: p in disk ==> !Contributes(tools, disk, p, k)
    ensures NodeAt(StructuralPass(tools, g, disk, listing, mode).nodes, k)
            == if k in g.nodes && g.nodes[k].filePath in disk
                  && tools.parse(g.nodes[k].filePath, disk[g.nodes[k].filePath]).ParseError?
               then Some(g.nodes[k]) else None
  {
    NodeEquation(tools, g, src, disk, listing, mode, k);
    if BatchNode(BatchOf(tools, g, disk, listing, mode), k).Some? {
      var p := BatchNodeOwner(tools, g, disk, listing, mode, k);
    }
    if k in g.nodes && g.nodes[k].filePath in disk {
      assert NodeIsRight(tools, g, src, k);
      SkippedIsUnchanged(tools, g, src, disk, mode, g.nodes[k].filePath);
    }
  }

  /** A walk that ends with a given file. */
  lemma {:induction false} ListingOf(paths: set<string>) returns (listing: seq<string>)
    ensures forall p :: p in listing <==> p in paths
    ensures forall i, j :: 0 <= i < j < |listing| ==> listing[i] != listing[j]
  {
    if paths == {} {
      listing := [];
    } else {
      var p :| p in paths;
      var rest := ListingOf(paths - {p});
      listing := rest + [p];
    }
  }

  lemma WalkEndingWith(disk: Contents, p: string) returns (listing: seq<string>)
    requires p in disk
    ensures Lists(listing, disk) && listing != [] && listing[|listing| - 1] == p
  {
    var rest := ListingOf(disk.Keys - {p});
    listing := rest + [p];
    assert forall i :: 0 <= i < |rest| ==> listing[i] == rest[i] && rest[i] in rest;
  }

  /** After a full pass a key holds what the last file of the walk contributes there. */
  lemma LastFileWins(tools: Tools, g: Graph, src: Contents, disk: Contents, listing: seq<string>, p: string, k: Key)
    requires GoodTools(tools) && Consistent(tools, g, src) && Lists(listing, disk) && listing != []
    requires p == listing[|listing| - 1] && p in disk && Contributes(tools, disk, p, k)
    ensures NodeAt(StructuralPass(tools, g, disk, listing, Full).nodes, k) == OwnNode(tools.parse(p, disk[p]).file, k)
    ensures OwnNode(tools.parse(p, disk[p]).file, k).value.filePath == p
  {
    NodeEquation(tools, g, src, disk, listing, Full, k);
    var files := BatchOf(tools, g, disk, listing, Full);
    var paths := WithFate(tools, g, disk, Full, listing, Reindexed);
    assert FateOf(tools, g, disk, Full, p) == Reindexed;
    assert paths[|paths| - 1] == p;
    assert files[|files| - 1] == tools.parse(p, disk[p]).file;
    OwnNodeFacts(tools.parse(p, disk[p]).file, k);
  }

  lemma SameAtEveryKey(a: map<Key, Node>, b: map<Key, Node>)
    requires forall k :: NodeAt(a, k) == NodeAt(b, k)
    ensures a == b
  {
    forall k ensures k in a <==> k in b {
      assert NodeAt(a, k) == NodeAt(b, k);
    }
    forall k | k in a && k in b ensures a[k] == b[k] {
      assert NodeAt(a, k) == NodeAt(b, k);
    }
  }

  /** From a consistent graph the two modes leave the same nodes, whatever the walk orders, exactly
      when no two files that parse contribute the same key. */
  lemma ModesAgreeExactlyWhenKeysAreDistinct(tools: Tools, g: Graph, src: Contents, disk: Contents)
    requires GoodTools(tools) && Consistent(tools, g, src)
    ensures ModesAgree(tools, g, disk) <==> ParsedKeysAreDistinct(tools, disk)
  {
    hide GoodTools, Consistent, StructuralPass, Lists, Contributes;
    if ParsedKeysAreDistinct(tools, disk) {
      forall listing: seq<string>, otherListing: seq<string> | Lists(listing, disk) && Lists(otherListing, disk)
        ensures StructuralPass(tools, g, disk, listing, Incremental).nodes == StructuralPass(tools, g, disk, otherListing, Full).nodes
      {
        DistinctKeysAgree(tools, g, src, disk, listing, otherListing);
      }
    } else {
      var p, q, k :| p in disk && q in disk && Contributes(tools, disk, p, k) && Contributes(tools, disk, q, k) && p != q;
      var first, second := WalksThatDisagree(tools, g, src, disk, p, q, k);
    }
  }

  /** Two files with a key in common: the full pass depends on which comes last. */
  lemma WalksThatDisagree(tools: Tools, g: Graph, src: Contents, disk: Contents, p: string, q: string, k: Key)
    returns (first: seq<string>, second: seq<string>)
    requires GoodTools(tools) && Consistent(tools, g, src) && p in disk && q in disk && p != q
    requires Contributes(tools, disk, p, k) && Contributes(tools, disk, q, k)
    ensures Lists(first, disk) && Lists(second, disk)
    ensures StructuralPass(tools, g, disk, first, Full).nodes != StructuralPass(tools, g, disk, second, Full).nodes
  {
    hide GoodTools, Consistent, StructuralPass;
    first := WalkEndingWith(disk, p);
    second := WalkEndingWith(disk, q);
    LastFileWins(tools, g, src, disk, first, p, k);
    LastFileWins(tools, g, src, disk, second, q, k);
  }

  lemma DistinctKeysAgree(tools: Tools, g: Graph, src: Contents, disk: Contents, listing: seq<string>, otherListing: seq<string>)
    requires GoodTools(tools) && Consistent(tools, g, src) && ParsedKeysAreDistinct(tools, disk)
    requires Lists(listing, disk) && Lists(otherListing, disk)
    ensures StructuralPass(tools, g, disk, listing, Incremental).nodes == StructuralPass(tools, g, disk, otherListing, Full).nodes
  {
    hide GoodTools, Consistent, ParsedKeysAreDistinct, Lists, StructuralPass, NodeAt;
    var incremental := StructuralPass(tools, g, disk, listing, Incremental).nodes;
    var full := StructuralPass(tools, g, disk, otherListing, Full).nodes;
    forall k ensures NodeAt(incremental, k) == NodeAt(full, k) {
      if p :| p in disk && Contributes(tools, disk, p, k) {
        ContributedNode(tools, g, src, disk, listing, Incremental, p, k);
        ContributedNode(tools, g, src, disk, otherListing, Full, p, k);
      } else {
        UncontributedNode(tools, g, src, disk, listing, Incremental, k);
        UncontributedNode(tools, g, src, disk, otherListing, Full, k);
      }
    }
    SameAtEveryKey(incremental, full);
  }
}
