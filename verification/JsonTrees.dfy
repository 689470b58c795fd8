/** Trees of dicts and lists, as decoded from JSON, with the walk over them and reads and writes
    along a path. */
module JsonTrees {
  import opened Options

  datatype Field = Field(key: string, value: Json)

  /** A dict keeps its insertion order. Numbers, booleans and null are scalars. */
  datatype Json = Scalar(token: string) | Text(text: string) | List(items: seq<Json>) | Dict(fields: seq<Field>)

  datatype Part = Key(name: string) | Index(i: nat)

  type Path = seq<Part>

  datatype Visit = Visit(path: Path, value: Json)

  // ---------------------------------------------------------------------------
  // Children.
  // ---------------------------------------------------------------------------

  function Arity(j: Json): nat {
    match j
    case List(items) => |items|
    case Dict(fields) => |fields|
    case _ => 0
  }

  function Child(j: Json, i: nat): (child: Json)
    requires i < Arity(j)
    ensures child < j
  {
    if j.List? then j.items[i] else
      assert j.fields[i] < j;
      j.fields[i].value
  }

  function PartAt(j: Json, i: nat): Part
    requires i < Arity(j)
  {
    if j.List? then Index(i) else Key(j.fields[i].key)
  }

  function WithChild(j: Json, i: nat, v: Json): (r: Json)
    requires i < Arity(j)
    ensures Arity(r) == Arity(j) && forall k: nat :: k < Arity(j) ==> PartAt(r, k) == PartAt(j, k)
    ensures Child(r, i) == v && forall k: nat :: k < Arity(j) && k != i ==> Child(r, k) == Child(j, k)
  {
    if j.List? then List(j.items[i := v]) else Dict(j.fields[i := Field(j.fields[i].key, v)])
  }

  /** No dict has a key twice. */
  predicate WellFormed(j: Json)
    decreases j
  {
    && (j.Dict? ==> forall a, b :: 0 <= a < b < |j.fields| ==> j.fields[a].key != j.fields[b].key)
    && forall i: nat :: i < Arity(j) ==> WellFormed(Child(j, i))
  }

  /** The position of the child a part names. */
  function Find(j: Json, part: Part, n: nat): (found: Option<nat>)
    requires n <= Arity(j)
    ensures found.Some? ==> found.value < n && PartAt(j, found.value) == part
    ensures found.None? ==> forall i: nat :: i < n ==> PartAt(j, i) != part
  {
    if n == 0 then None
    else if PartAt(j, n - 1) == part then Some(n - 1)
    else Find(j, part, n - 1)
  }

  lemma FindFinds(j: Json, i: nat)
    requires WellFormed(j) && i < Arity(j)
    ensures Find(j, PartAt(j, i), Arity(j)) == Some(i)
  {
    var k := Find(j, PartAt(j, i), Arity(j)).value;
    assert PartAt(j, k) == PartAt(j, i);
  }

  // ---------------------------------------------------------------------------
  // Reading and writing along a path.
  // ---------------------------------------------------------------------------

  function Get(j: Json, path: Path): Option<Json>
    decreases path
  {
    if path == [] then Some(j)
    else
      var i := Find(j, path[0], Arity(j));
      if i.None? then None else Get(Child(j, i.value), path[1..])
  }

  function Put(j: Json, path: Path, v: Json): (r: Json)
    requires Get(j, path).Some?
    decreases path
  {
    if path == [] then v
    else
      var i := Find(j, path[0], Arity(j)).value;
      WithChild(j, i, Put(Child(j, i), path[1..], v))
  }

  lemma {:induction false} FindIgnoresChildren(j: Json, i: nat, v: Json, part: Part, n: nat)
    requires i < Arity(j) && n <= Arity(j)
    ensures Find(WithChild(j, i, v), part, n) == Find(j, part, n)
  {
    if n > 0 {
      FindIgnoresChildren(j, i, v, part, n - 1);
    }
  }

  lemma {:induction false} GetAfterPut(j: Json, path: Path, v: Json)
    requires Get(j, path).Some?
    ensures Get(Put(j, path, v), path) == Some(v)
    decreases path
  {
    if path != [] {
      var i := Find(j, path[0], Arity(j)).value;
      GetAfterPut(Child(j, i), path[1..], v);
      FindIgnoresChildren(j, i, Put(Child(j, i), path[1..], v), path[0], Arity(j));
    }
  }

  lemma SameChild(j: Json, i: nat)
    requires i < Arity(j)
    ensures WithChild(j, i, Child(j, i)) == j
  {
  }

  lemma {:induction false} PutWhatIsThere(j: Json, path: Path)
    requires Get(j, path).Some?
    ensures Put(j, path, Get(j, path).value) == j
    decreases path
  {
    if path != [] {
      var i := Find(j, path[0], Arity(j)).value;
      PutWhatIsThere(Child(j, i), path[1..]);
      SameChild(j, i);
    }
  }

  /** The later of two writes at one path stands. */
  lemma {:induction false} PutTwice(j: Json, path: Path, v: Json, w: Json)
    requires Get(j, path).Some?
    ensures Get(Put(j, path, v), path).Some? && Put(Put(j, path, v), path, w) == Put(j, path, w)
    decreases path
  {
    GetAfterPut(j, path, v);
    if path != [] {
      var i := Find(j, path[0], Arity(j)).value;
      var below := Put(Child(j, i), path[1..], v);
      PutTwice(Child(j, i), path[1..], v, w);
      FindIgnoresChildren(j, i, below, path[0], Arity(j));
      ChildTwice(j, i, below, Put(below, path[1..], w));
    }
  }

  lemma ChildTwice(j: Json, i: nat, v: Json, w: Json)
    requires i < Arity(j)
    ensures WithChild(WithChild(j, i, v), i, w) == WithChild(j, i, w)
  {
  }

  /** Writing at one path leaves every path that neither extends it nor is extended by it. */
  lemma {:induction false} PutElsewhere(j: Json, path: Path, v: Json, other: Path)
    requires Get(j, path).Some? && !(path <= other) && !(other <= path)
    ensures Get(Put(j, path, v), other) == Get(j, other)
    decreases path
  {
    var i := Find(j, path[0], Arity(j)).value;
    FindIgnoresChildren(j, i, Put(Child(j, i), path[1..], v), other[0], Arity(j));
    if other[0] == path[0] {
      assert path == [path[0]] + path[1..] && other == [other[0]] + other[1..];
      PutElsewhere(Child(j, i), path[1..], v, other[1..]);
    }
  }

  lemma {:induction false} PutKeepsKeys(j: Json, path: Path, v: Json)
    requires Get(j, path).Some? && WellFormed(j) && WellFormed(v)
    ensures WellFormed(Put(j, path, v))
    decreases path
  {
    if path != [] {
      var i := Find(j, path[0], Arity(j)).value;
      PutKeepsKeys(Child(j, i), path[1..], v);
      var r := Put(j, path, v);
      if r.Dict? {
        assert forall a: nat :: a < |r.fields| ==> Key(r.fields[a].key) == PartAt(r, a);
      }
    }
  }

  // ---------------------------------------------------------------------------
  // The walk.
  // ---------------------------------------------------------------------------

  /** The visits to the first `n` children, each followed by the walk below it. */
  function WalkTo(j: Json, n: nat, prefix: Path): seq<Visit>
    requires n <= Arity(j)
    decreases j, n
  {
    if n == 0 then []
    else
      var child, path := Child(j, n - 1), prefix + [PartAt(j, n - 1)];
      WalkTo(j, n - 1, prefix) + [Visit(path, child)] + WalkTo(child, Arity(child), path)
  }

  /** Every node but the root, parents first. */
  function Walk(j: Json, prefix: Path): seq<Visit> {
    WalkTo(j, Arity(j), prefix)
  }

  ghost predicate IsAt(j: Json, prefix: Path, v: Visit) {
    exists q: Path :: q != [] && v.path == prefix + q && Get(j, q) == Some(v.value)
  }

  lemma ChildIsAt(j: Json, i: nat, prefix: Path)
    requires WellFormed(j) && i < Arity(j)
    ensures IsAt(j, prefix, Visit(prefix + [PartAt(j, i)], Child(j, i)))
  {
    FindFinds(j, i);
    var q := [PartAt(j, i)];
    assert q[1..] == [] && Get(j, q) == Some(Child(j, i));
  }

  lemma BelowChildIsAt(j: Json, i: nat, prefix: Path, v: Visit)
    requires WellFormed(j) && i < Arity(j) && IsAt(Child(j, i), prefix + [PartAt(j, i)], v)
    ensures IsAt(j, prefix, v)
  {
    FindFinds(j, i);
    var part := PartAt(j, i);
    var q: Path :| q != [] && v.path == (prefix + [part]) + q && Get(Child(j, i), q) == Some(v.value);
    var longer := [part] + q;
    assert longer[1..] == q && v.path == prefix + longer;
    assert Get(j, longer) == Some(v.value);
  }

  lemma PartsStayWellFormed(j: Json, i: nat)
    requires WellFormed(j) && i < Arity(j)
    ensures WellFormed(Child(j, i))
  {
  }

  /** Whatever the walk visits is what a read along its path finds. */
  lemma {:induction false} VisitsAreReads(j: Json, n: nat, prefix: Path, v: Visit)
    requires WellFormed(j) && n <= Arity(j) && v in WalkTo(j, n, prefix)
    ensures IsAt(j, prefix, v)
    decreases j, n
  {
    hide WellFormed, IsAt;
    PartsStayWellFormed(j, n - 1);
    var child, path := Child(j, n - 1), prefix + [PartAt(j, n - 1)];
    if v in WalkTo(j, n - 1, prefix) {
      VisitsAreReads(j, n - 1, prefix, v);
    } else if v == Visit(path, child) {
      ChildIsAt(j, n - 1, prefix);
    } else {
      VisitsAreReads(child, Arity(child), path, v);
      BelowChildIsAt(j, n - 1, prefix, v);
    }
  }

  lemma {:induction false} WalkGrows(j: Json, i: nat, n: nat, prefix: Path)
    requires i <= n <= Arity(j)
    ensures WalkTo(j, i, prefix) <= WalkTo(j, n, prefix)
  {
    if i < n {
      WalkGrows(j, i, n - 1, prefix);
    }
  }

  lemma WalkHasChild(j: Json, i: nat, prefix: Path, v: Visit)
    requires i < Arity(j)
    requires var child, path := Child(j, i), prefix + [PartAt(j, i)];
             v == Visit(path, child) || v in Walk(child, path)
    ensures v in Walk(j, prefix)
  {
    WalkGrows(j, i + 1, Arity(j), prefix);
    assert v in WalkTo(j, i + 1, prefix);
  }

  /** And the walk misses nothing a read can reach. */
  lemma {:induction false} ReadsAreVisited(j: Json, q: Path, prefix: Path)
    requires q != [] && Get(j, q).Some?
    ensures Visit(prefix + q, Get(j, q).value) in Walk(j, prefix)
    decreases q
  {
    var i := Find(j, q[0], Arity(j)).value;
    var child, path := Child(j, i), prefix + [PartAt(j, i)];
    if |q| == 1 {
      assert q == [q[0]] && q[1..] == [];
    } else {
      ReadsAreVisited(child, q[1..], path);
      assert prefix + q == path + q[1..];
    }
    WalkHasChild(j, i, prefix, Visit(prefix + q, Get(j, q).value));
  }

  lemma VisitFromRoot(j: Json, v: Visit)
    requires WellFormed(j) && v in Walk(j, [])
    ensures v.path != [] && Get(j, v.path) == Some(v.value)
  {
    VisitsAreReads(j, Arity(j), [], v);
    var q: Path :| q != [] && v.path == [] + q && Get(j, q) == Some(v.value);
    assert v.path == q;
  }

  // ---------------------------------------------------------------------------
  // Weight.
  // ---------------------------------------------------------------------------

  function OwnWeight(j: Json): nat {
    if j.Text? then |j.text| else 0
  }

  function WeightTo(j: Json, n: nat): nat
    requires n <= Arity(j)
    decreases j, n
  {
    if n == 0 then OwnWeight(j) else WeightTo(j, n - 1) + 1 + WeightTo(Child(j, n - 1), Arity(Child(j, n - 1)))
  }

  /** One for every node but the root, and the characters of every string. */
  function Weight(j: Json): nat {
    WeightTo(j, Arity(j))
  }

  lemma {:induction false} WeightOfChange(j: Json, i: nat, v: Json, n: nat)
    requires i < Arity(j) && n <= Arity(j)
    ensures WeightTo(WithChild(j, i, v), n) == WeightTo(j, n) + if i < n then Weight(v) - Weight(Child(j, i)) else 0
  {
    if n > 0 {
      WeightOfChange(j, i, v, n - 1);
    }
  }

  /** A write changes the weight by what it puts in for what it takes out. */
  lemma {:induction false} WeightAfterPut(j: Json, path: Path, v: Json)
    requires Get(j, path).Some?
    ensures Weight(Put(j, path, v)) == Weight(j) - Weight(Get(j, path).value) + Weight(v)
    decreases path
  {
    if path != [] {
      var i := Find(j, path[0], Arity(j)).value;
      WeightAfterPut(Child(j, i), path[1..], v);
      WeightOfChange(j, i, Put(Child(j, i), path[1..], v), Arity(j));
    }
  }

  lemma {:induction false} WeightOfPrefix(items: seq<Json>, k: nat, n: nat)
    requires k <= |items| && n <= k
    ensures WeightTo(List(items[..k]), n) == WeightTo(List(items), n)
  {
    if n > 0 {
      WeightOfPrefix(items, k, n - 1);
      assert Child(List(items[..k]), n - 1) == Child(List(items), n - 1);
    }
  }

  lemma {:induction false} WeightGrows(j: Json, k: nat, n: nat)
    requires k <= n <= Arity(j)
    ensures WeightTo(j, n) >= WeightTo(j, k) + n - k
  {
    if k < n {
      WeightGrows(j, k, n - 1);
    }
  }

  /** A list cut to a shorter prefix weighs less. */
  lemma CutListWeighsLess(items: seq<Json>, k: nat)
    requires k < |items|
    ensures Weight(List(items[..k])) < Weight(List(items))
  {
    WeightOfPrefix(items, k, k);
    WeightGrows(List(items), k, |items|);
  }
}
