/** The knowledge graph as the index builders see it: nodes merged by key, edges merged by
    their two ends, and a delete that takes a file's nodes with every edge touching them. */
module GraphStore {
  import opened Options

  datatype Kind =
    | FileKind | ModuleKind | ClassKind | FunctionKind | MethodKind
    | ParameterKind | DocstringKind | ImportKind

  /** What a node is merged on. A file has its path as name, a code entity its qualified name,
      a docstring its owner's; a parameter has its owner and position, an import its file's
      path and position. */
  datatype Key = Key(kind: Kind, name: string, position: nat)

  datatype Props =
    | FileProps(contentHash: string)
    | EntityProps(shortName: string, lineStart: int, lineEnd: int, bases: seq<string>)
    | ParameterProps(parameter: string, annotation: Option<string>, default: Option<string>)
    | DocstringProps(text: string, summary: string)
    | ImportProps(source: string, names: seq<string>, alias: Option<string>)

  /** A node and the file it belongs to. */
  datatype Node = Node(filePath: string, props: Props)

  datatype Row = Row(key: Key, node: Node)

  datatype Relation = Imports | Calls | InheritsFrom

  datatype Edge = Edge(relation: Relation, src: Key, dst: Key)

  datatype Graph = Graph(nodes: map<Key, Node>, edges: set<Edge>)

  // ---------------------------------------------------------------------------
  // The three kinds of batch write.
  // ---------------------------------------------------------------------------

  function PathSet(paths: seq<string>): set<string> {
    set p | p in paths
  }

  predicate OwnedBy(nodes: map<Key, Node>, k: Key, paths: set<string>) {
    k in nodes && nodes[k].filePath in paths
  }

  /** DETACH DELETE of the nodes owned by `paths`: every edge at such a node goes too. */
  function DeleteSubtrees(g: Graph, paths: set<string>): Graph {
    Graph(
      map k | k in g.nodes && g.nodes[k].filePath !in paths :: g.nodes[k],
      set e | e in g.edges && !OwnedBy(g.nodes, e.src, paths) && !OwnedBy(g.nodes, e.dst, paths))
  }

  /** MERGE row by row: insert, or overwrite the properties of the node with that key. */
  function MergeRows(nodes: map<Key, Node>, rows: seq<Row>): map<Key, Node> {
    if rows == [] then nodes
    else MergeRows(nodes, rows[..|rows| - 1])[rows[|rows| - 1].key := rows[|rows| - 1].node]
  }

  /** MATCH both ends, then MERGE the edge. */
  function MergeEdges(g: Graph, rows: set<Edge>): Graph {
    g.(edges := g.edges + set e | e in rows && e.src in g.nodes && e.dst in g.nodes)
  }

  function LastNode(rows: seq<Row>, k: Key): Option<Node> {
    if rows == [] then None
    else if rows[|rows| - 1].key == k then Some(rows[|rows| - 1].node)
    else LastNode(rows[..|rows| - 1], k)
  }

  function NodeAt(nodes: map<Key, Node>, k: Key): Option<Node> {
    if k in nodes then Some(nodes[k]) else None
  }

  /** After a merge a key holds what the last row for it wrote, or what it held before. */
  lemma {:induction false} LastRowWins(nodes: map<Key, Node>, rows: seq<Row>, k: Key)
    ensures NodeAt(MergeRows(nodes, rows), k)
            == if LastNode(rows, k).Some? then LastNode(rows, k) else NodeAt(nodes, k)
  {
    if rows != [] {
      LastRowWins(nodes, rows[..|rows| - 1], k);
    }
  }

  lemma {:induction false} LastNodeOfAppend(a: seq<Row>, b: seq<Row>, k: Key)
    ensures LastNode(a + b, k) == if LastNode(b, k).Some? then LastNode(b, k) else LastNode(a, k)
  {
    if b == [] {
      assert a + b == a;
    } else {
      assert (a + b)[..|a + b| - 1] == a + b[..|b| - 1];
      LastNodeOfAppend(a, b[..|b| - 1], k);
    }
  }

  lemma {:induction false} LastNodeIsARow(rows: seq<Row>, k: Key)
    ensures LastNode(rows, k).Some? ==> Row(k, LastNode(rows, k).value) in rows
    ensures LastNode(rows, k).None? ==> forall r :: r in rows ==> r.key != k
  {
    if rows != [] {
      LastNodeIsARow(rows[..|rows| - 1], k);
      assert rows == rows[..|rows| - 1] + [rows[|rows| - 1]];
    }
  }

  /** The store the indexer writes through. */
  class Store {
    var nodes: map<Key, Node>
    var edges: set<Edge>

    function View(): Graph
      reads this
    {
      Graph(nodes, edges)
    }

    constructor (g: Graph)
      ensures View() == g
    {
      nodes, edges := g.nodes, g.edges;
    }

    method Delete(paths: seq<string>)
      modifies this
      ensures View() == DeleteSubtrees(old(View()), PathSet(paths))
    {
      for i := 0 to |paths|
        invariant View() == DeleteSubtrees(old(View()), PathSet(paths[..i]))
      {
        var path := paths[i];
        assert PathSet(paths[..i + 1]) == PathSet(paths[..i]) + {path};
        edges := set e | e in edges && !OwnedBy(nodes, e.src, {path}) && !OwnedBy(nodes, e.dst, {path});
        nodes := map k | k in nodes && nodes[k].filePath != path :: nodes[k];
      }
      assert paths[..|paths|] == paths;
    }

    method Merge(rows: seq<Row>)
      modifies this`nodes
      ensures nodes == MergeRows(old(nodes), rows)
    {
      for i := 0 to |rows|
        invariant nodes == MergeRows(old(nodes), rows[..i])
      {
        assert rows[..i + 1][..i] == rows[..i];
        nodes := nodes[rows[i].key := rows[i].node];
      }
      assert rows[..|rows|] == rows;
    }

    /** Afterwards an edge is there exactly when it was, or it is a row and both its ends exist. */
    method Link(rows: set<Edge>)
      modifies this`edges
      ensures nodes == old(nodes)
      ensures forall e :: e in edges <==> e in old(edges) || (e in rows && e.src in nodes && e.dst in nodes)
    {
      edges := edges + set e | e in rows && e.src in nodes && e.dst in nodes;
    }
  }
}
