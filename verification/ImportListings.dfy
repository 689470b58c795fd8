/** Import rows read back from the graph: on a consistent graph each file's come back whole and in
    source order. */
module ImportListings {
  import opened ImportBindings
  import opened GraphStore
  import opened ParsedFiles
  import opened IndexPass

  predicate ImportEnds(g: Graph, e: Edge) {
    e.relation == Imports && e.src in g.nodes && e.dst in g.nodes && g.nodes[e.dst].props.ImportProps?
  }

  function RowOfEdge(g: Graph, e: Edge): ImportRow
    requires ImportEnds(g, e)
  {
    var p := g.nodes[e.dst].props;
    ImportRow(e.src.name, g.nodes[e.src].filePath, e.dst.position, p.source, p.names, p.alias)
  }

  /** A result of the query that reads imports: each import edge once, by position per module. */
  ghost predicate ImportListing(g: Graph, listed: seq<Edge>) {
    && (forall e :: e in listed <==> e in g.edges && ImportEnds(g, e))
    && (forall i, j :: 0 <= i < j < |listed| ==> listed[i] != listed[j])
    && (forall i, j :: 0 <= i < j < |listed| && listed[i].src == listed[j].src
          ==> listed[i].dst.position <= listed[j].dst.position)
  }

  function ListedRows(g: Graph, listed: seq<Edge>): (rows: seq<ImportRow>)
    requires forall e :: e in listed ==> ImportEnds(g, e)
    ensures |rows| == |listed| && forall i :: 0 <= i < |rows| ==> rows[i] == RowOfEdge(g, listed[i])
  {
    seq(|listed|, i requires 0 <= i < |listed| => RowOfEdge(g, listed[i]))
  }

  predicate Ascending(rows: seq<ImportRow>) {
    forall i, j :: 0 <= i < j < |rows| ==> rows[i].position < rows[j].position
  }

  ghost predicate HasPosition(rows: seq<ImportRow>, i: int) {
    exists j :: 0 <= j < |rows| && rows[j].position == i
  }

  lemma {:induction false} PositionIsIndex(rows: seq<ImportRow>, i: nat)
    requires Ascending(rows) && forall m :: 0 <= m <= i ==> HasPosition(rows, m)
    ensures i < |rows| && rows[i].position == i
  {
    assert HasPosition(rows, i);
    var j :| 0 <= j < |rows| && rows[j].position == i;
    if j != i {
      var smaller := if j < i then j else rows[i].position;
      PositionIsIndex(rows, smaller);
    }
  }

  lemma {:induction false} PositionAtLeastIndex(rows: seq<ImportRow>, i: nat)
    requires Ascending(rows) && i < |rows|
    ensures rows[i].position >= i
  {
    if i > 0 {
      PositionAtLeastIndex(rows, i - 1);
    }
  }

  /** An ascending list whose positions are exactly 0 .. n - 1 counts up from 0. */
  lemma AscendingCountsUp(rows: seq<ImportRow>, n: nat)
    requires Ascending(rows) && forall r :: r in rows ==> r.position < n
    requires forall i :: 0 <= i < n ==> HasPosition(rows, i)
    ensures |rows| == n && forall i :: 0 <= i < n ==> rows[i].position == i
  {
    forall i | 0 <= i < n ensures i < |rows| && rows[i].position == i {
      PositionIsIndex(rows, i);
    }
    if n > 0 {
      PositionIsIndex(rows, n - 1);
    }
    if |rows| > 0 {
      PositionAtLeastIndex(rows, |rows| - 1);
      assert rows[|rows| - 1] in rows;
    }
  }

  lemma {:induction false} RowsOfFacts(rows: seq<ImportRow>, owner: string)
    ensures forall r :: r in RowsOf(rows, owner) <==> r in rows && r.owner == owner
    ensures (forall i, j :: 0 <= i < j < |rows| && rows[i].owner == owner && rows[j].owner == owner
               ==> rows[i].position < rows[j].position) ==> Ascending(RowsOf(rows, owner))
  {
    if rows != [] {
      var n := |rows| - 1;
      RowsOfFacts(rows[..n], owner);
      assert rows == rows[..n] + [rows[n]];
      if forall i, j :: 0 <= i < j < |rows| && rows[i].owner == owner && rows[j].owner == owner
           ==> rows[i].position < rows[j].position
      {
        assert Ascending(RowsOf(rows[..n], owner));
        forall r | r in RowsOf(rows[..n], owner) && rows[n].owner == owner ensures r.position < rows[n].position {
          var i :| 0 <= i < n && rows[i] == r;
        }
      }
    }
  }

  /** What a row read back for the module of file `f` is. */
  predicate IsStoredRow(row: ImportRow, f: ParsedFile) {
    row.position < |f.imports| && row == StoredRow(f.imports[row.position], f.home, f.path, row.position)
  }

  /** Rows of one module that ascend and cover every import are the rows its file stored. */
  lemma AscendingStoredRows(mine: seq<ImportRow>, f: ParsedFile)
    requires Ascending(mine) && forall r :: r in mine ==> IsStoredRow(r, f)
    requires forall i :: 0 <= i < |f.imports| ==> HasPosition(mine, i)
    ensures mine == StoredRows(f.imports, f.home, f.path)
  {
    AscendingCountsUp(mine, |f.imports|);
    forall i | 0 <= i < |mine| ensures mine[i] == StoredRows(f.imports, f.home, f.path)[i] {
      assert mine[i] in mine;
    }
  }

  lemma ImportEdgesHaveEnds(tools: Tools, g: Graph, src: Contents, p: string, e: Edge)
    requires GoodTools(tools) && Consistent(tools, g, src) && p in src && e in ImportEdges(FileAt(tools, src, p))
    ensures e in g.edges && ImportEnds(g, e)
  {
    var f := FileAt(tools, src, p);
    ImportEdgeEndsInGraph(tools, g, src, p, e);
    assert NodeIsRight(tools, g, src, e.dst);
    LastNodeIsARow(RowsOfKind(f, ImportKind), e.dst);
  }

  /** The listing's rows for one file's module: where they come from, and that none is missing. */
  lemma ModuleRows(tools: Tools, g: Graph, src: Contents, listed: seq<Edge>, p: string)
    requires GoodTools(tools) && Consistent(tools, g, src) && ImportListing(g, listed)
    requires p in src
    ensures var f := FileAt(tools, src, p);
            var rows := ListedRows(g, listed);
            forall i :: 0 <= i < |rows| && rows[i].owner == f.home ==> IsStoredRow(rows[i], f) && listed[i] in ImportEdges(f)
    ensures var f := FileAt(tools, src, p);
            forall i :: 0 <= i < |f.imports| ==> HasPosition(RowsOf(ListedRows(g, listed), f.home), i)
  {
    var f := FileAt(tools, src, p);
    var rows := ListedRows(g, listed);
    var mine := RowsOf(rows, f.home);
    forall i | 0 <= i < |rows| && rows[i].owner == f.home ensures IsStoredRow(rows[i], f) && listed[i] in ImportEdges(f) {
      RowOfModule(tools, g, src, listed[i], p);
    }
    RowsOfFacts(rows, f.home);
    forall i | 0 <= i < |f.imports| ensures HasPosition(mine, i) {
      var e := Edge(Imports, Key(ModuleKind, f.home, 0), Key(ImportKind, f.path, i));
      assert e in ImportEdges(f);
      ImportEdgesHaveEnds(tools, g, src, p, e);
      var at :| 0 <= at < |listed| && listed[at] == e;
      assert rows[at] in rows && rows[at] in mine;
      var j :| 0 <= j < |mine| && mine[j] == rows[at];
    }
  }

  /** On a consistent graph the rows read back for a module are the rows its file stored. */
  lemma ListingGivesStoredRows(tools: Tools, g: Graph, src: Contents, listed: seq<Edge>, p: string)
    requires GoodTools(tools) && Consistent(tools, g, src) && ImportListing(g, listed)
    requires p in src
    ensures var f := FileAt(tools, src, p);
            RowsOf(ListedRows(g, listed), f.home) == StoredRows(f.imports, f.home, p)
  {
    var f := FileAt(tools, src, p);
    var rows := ListedRows(g, listed);
    ModuleRows(tools, g, src, listed, p);
    forall i, j | 0 <= i < j < |rows| && rows[i].owner == f.home && rows[j].owner == f.home
      ensures rows[i].position < rows[j].position
    {
      DistinctImportEdges(f, listed[i], listed[j]);
    }
    RowsOfFacts(rows, f.home);
    forall r | r in RowsOf(rows, f.home) ensures IsStoredRow(r, f) {
      var i :| 0 <= i < |rows| && rows[i] == r;
    }
    AscendingStoredRows(RowsOf(rows, f.home), f);
  }

  lemma DistinctImportEdges(f: ParsedFile, a: Edge, b: Edge)
    requires a in ImportEdges(f) && b in ImportEdges(f) && a != b
    ensures a.src == b.src && a.dst.position != b.dst.position
  {
  }

  /** An import edge listed under a module is one of the module's file. */
  lemma RowOfModule(tools: Tools, g: Graph, src: Contents, e: Edge, p: string)
    requires GoodTools(tools) && Consistent(tools, g, src) && p in src
    requires e in g.edges && ImportEnds(g, e) && e.src.name == FileAt(tools, src, p).home
    ensures var f := FileAt(tools, src, p);
            e in ImportEdges(f) && e.dst.position < |f.imports|
            && RowOfEdge(g, e) == StoredRow(f.imports[e.dst.position], f.home, p, e.dst.position)
  {
    var f := FileAt(tools, src, p);
    var q := e.dst.name;
    var other := FileAt(tools, src, q);
    ImportEdgeEndsInGraph(tools, g, src, q, e);
    EndsOfImportEdges(other, e);
    assert OwnNode(f, e.src).Some? by {
      LastNodeIsARow(RowsOfKind(f, ModuleKind), e.src);
      assert RowsOfKind(f, ModuleKind)[0].key == e.src;
    }
    assert NodeIsRight(tools, g, src, e.src) && NodeIsRight(tools, g, src, e.dst);
    OwnNodeFacts(f, e.src);
    assert q == p;
    LastNodeIsARow(RowsOfKind(f, ImportKind), e.dst);
  }
}
