/** The indexes from short names to qualified names that a pass fills. */
module NameIndexes {
  import opened NameResolution
  import opened ResolutionOrder
  import opened GraphStore

  /** A qualified name and its short name. */
  type Named = (string, string)

  datatype NameIndex = NameIndex(qns: set<string>, names: map<string, seq<string>>)

  function AddName(ix: NameIndex, named: Named): NameIndex {
    var bucket := Bucket(ix.names, named.1);
    NameIndex(ix.qns + {named.0}, ix.names[named.1 := if named.0 in bucket then bucket else bucket + [named.0]])
  }

  /** The index lists exactly these names, each once under its short name. */
  ghost predicate Indexes(ix: NameIndex, entries: set<Named>) {
    && (forall qn :: qn in ix.qns <==> exists n :: (qn, n) in entries)
    && (forall n, qn :: qn in Bucket(ix.names, n) <==> (qn, n) in entries)
    && (forall n :: NoDuplicates(Bucket(ix.names, n)))
  }

  lemma AddNameIndexes(ix: NameIndex, entries: set<Named>, named: Named)
    requires Indexes(ix, entries)
    ensures Indexes(AddName(ix, named), entries + {named})
  {
    var next := AddName(ix, named);
    forall n ensures NoDuplicates(Bucket(next.names, n)) {
      assert NoDuplicates(Bucket(ix.names, n));
    }
    forall qn ensures qn in next.qns <==> exists n :: (qn, n) in entries + {named} {
      if qn in ix.qns {
        var n :| (qn, n) in entries;
        assert (qn, n) in entries + {named};
      }
      if qn == named.0 {
        assert (qn, named.1) in entries + {named};
      }
    }
  }

  function NamedSet(entries: seq<Named>): set<Named> {
    set e | e in entries
  }

  method FillIndex(entries: seq<Named>) returns (ix: NameIndex)
    ensures Indexes(ix, NamedSet(entries))
  {
    ix := NameIndex({}, map[]);
    for i := 0 to |entries|
      invariant Indexes(ix, NamedSet(entries[..i]))
    {
      assert NamedSet(entries[..i + 1]) == NamedSet(entries[..i]) + {entries[i]};
      AddNameIndexes(ix, NamedSet(entries[..i]), entries[i]);
      ix := AddName(ix, entries[i]);
    }
    assert entries[..|entries|] == entries;
  }

  /** The names a graph holds for some kinds of entity. */
  function GraphNames(g: Graph, kinds: set<Kind>): set<Named> {
    set k | k in g.nodes && k.kind in kinds && g.nodes[k].props.EntityProps? :: (k.name, g.nodes[k].props.shortName)
  }

  function GraphQns(g: Graph, kinds: set<Kind>): set<string> {
    set k | k in g.nodes && k.kind in kinds && g.nodes[k].props.EntityProps? :: k.name
  }

  const CALLABLES: set<Kind> := {FunctionKind, MethodKind}
}
