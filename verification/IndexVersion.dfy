/** The text the index version is a digest of: a sorted serialisation of the path-to-hash map.
    Strings stand for their UTF-8 bytes, an injective encoding. */
module IndexVersion {
  datatype Item = Item(path: string, hash: string)

  /** A path-to-hash dict, as its items in insertion order. */
  type Items = seq<Item>

  predicate Distinct(items: Items) {
    forall i, j :: 0 <= i < j < |items| ==> items[i].path != items[j].path
  }

  /** The dict behind the items. */
  function Dict(items: Items): map<string, string> {
    if items == [] then map[] else Dict(items[1..])[items[0].path := items[0].hash]
  }

  /** Code-point order of strings. */
  predicate Below(a: string, b: string) {
    b != "" && (a == "" || a[0] < b[0] || (a[0] == b[0] && Below(a[1..], b[1..])))
  }

  lemma {:induction false} BelowIsTransitive(a: string, b: string, c: string)
    requires Below(a, b) && Below(b, c)
    ensures Below(a, c)
  {
    if a != "" && a[0] == b[0] == c[0] {
      BelowIsTransitive(a[1..], b[1..], c[1..]);
    }
  }

  /** Of two strings exactly one of three things holds. */
  lemma {:induction false} BelowIsTotal(a: string, b: string)
    ensures a == b ==> !Below(a, b)
    ensures a != b ==> (Below(a, b) <==> !Below(b, a))
  {
    if a != "" && b != "" && a[0] == b[0] {
      BelowIsTotal(a[1..], b[1..]);
      assert a == [a[0]] + a[1..] && b == [b[0]] + b[1..];
    }
  }

  ghost predicate Sorted(items: Items) {
    forall i, j :: 0 <= i < j < |items| ==> Below(items[i].path, items[j].path)
  }

  function Insert(item: Item, items: Items): Items {
    if items == [] || Below(item.path, items[0].path) then [item] + items
    else [items[0]] + Insert(item, items[1..])
  }

  /** `sorted(file_hashes.items())` */
  function Sort(items: Items): Items {
    if items == [] then [] else Insert(items[0], Sort(items[1..]))
  }

  lemma {:induction false} InsertKeepsOrder(item: Item, items: Items)
    requires Sorted(items) && forall i :: 0 <= i < |items| ==> items[i].path != item.path
    ensures Sorted(Insert(item, items))
    ensures forall x :: x in Insert(item, items) <==> x == item || x in items
  {
    var result := Insert(item, items);
    if items != [] && Below(item.path, items[0].path) {
      forall j | 0 < j < |result| ensures Below(item.path, result[j].path) {
        if j > 1 {
          BelowIsTransitive(item.path, items[0].path, items[j - 1].path);
        }
      }
    } else if items != [] {
      var rest := items[1..];
      InsertKeepsOrder(item, rest);
      BelowIsTotal(item.path, items[0].path);
      var tail := Insert(item, rest);
      forall j | 0 < j < |result| ensures Below(items[0].path, result[j].path) {
        assert tail[j - 1] in tail;
      }
      assert items == [items[0]] + rest;
    }
  }

  lemma {:induction false} SortSorts(items: Items)
    requires Distinct(items)
    ensures Sorted(Sort(items)) && forall x :: x in Sort(items) <==> x in items
  {
    if items != [] {
      var rest := items[1..];
      SortSorts(rest);
      forall i | 0 <= i < |Sort(rest)| ensures Sort(rest)[i].path != items[0].path {
        assert Sort(rest)[i] in rest;
      }
      InsertKeepsOrder(items[0], Sort(rest));
      assert items == [items[0]] + rest;
    }
  }

  lemma HeadIsLeast(items: Items, x: Item)
    requires Sorted(items) && x in items
    ensures x == items[0] || Below(items[0].path, x.path)
  {
    var i :| 0 <= i < |items| && items[i] == x;
  }

  /** A sorted listing is determined by its members. */
  lemma {:induction false} SortedListingIsUnique(a: Items, b: Items)
    requires Sorted(a) && Sorted(b) && forall x :: x in a <==> x in b
    ensures a == b
  {
    assert |b| > 0 ==> b[0] in a;
    if a == [] {
      assert |b| == 0;
    } else {
      assert a[0] in b;
      HeadIsLeast(b, a[0]);
      HeadIsLeast(a, b[0]);
      BelowIsTotal(a[0].path, b[0].path);
      assert a[0] == b[0];
      forall x ensures x in a[1..] <==> x in b[1..] {
        InRest(a, x);
        InRest(b, x);
      }
      SortedListingIsUnique(a[1..], b[1..]);
      assert a == [a[0]] + a[1..] && b == [b[0]] + b[1..];
    }
  }

  lemma InRest(items: Items, x: Item)
    requires Sorted(items) && items != []
    ensures x in items[1..] <==> x in items && x != items[0]
  {
    if x in items[1..] {
      var k :| 0 <= k < |items[1..]| && items[1..][k] == x;
      BelowIsTotal(items[0].path, items[k + 1].path);
    }
    assert items == [items[0]] + items[1..];
  }

  lemma {:induction false} DictHasItems(items: Items)
    requires Distinct(items)
    ensures forall x: Item :: x in items <==> x.path in Dict(items) && Dict(items)[x.path] == x.hash
  {
    if items != [] {
      var rest := items[1..];
      DictHasItems(rest);
      assert items == [items[0]] + rest;
      assert forall p :: p in Dict(rest) ==> Item(p, Dict(rest)[p]) in rest;
    }
  }

  lemma SameItemsSameDict(a: Items, b: Items)
    requires Distinct(a) && Distinct(b) && forall x :: x in a <==> x in b
    ensures Dict(a) == Dict(b)
  {
    hide Dict, Distinct;
    DictHasItems(a);
    DictHasItems(b);
    forall p ensures p in Dict(a) <==> p in Dict(b)
             ensures p in Dict(a) && p in Dict(b) ==> Dict(a)[p] == Dict(b)[p] {
      if p in Dict(a) {
        assert Item(p, Dict(a)[p]) in b;
      }
      if p in Dict(b) {
        assert Item(p, Dict(b)[p]) in a;
      }
    }
  }

  // ---------------------------------------------------------------------------
  // The text fed to the digest.
  // ---------------------------------------------------------------------------

  function Record(item: Item): string {
    item.path + "\0" + item.hash + "\n"
  }

  function Serialised(items: Items): string {
    if items == [] then "" else Serialised(items[..|items| - 1]) + Record(items[|items| - 1])
  }

  function VersionText(items: Items): string {
    Serialised(Sort(items))
  }

  /** Feeds the digest; its hexadecimal form is the index version. */
  method ComputeIndexVersion(fileHashes: Items) returns (digest: string)
    ensures digest == VersionText(fileHashes)
  {
    var sorted := Sort(fileHashes);
    digest := "";
    for i := 0 to |sorted|
      invariant digest == Serialised(sorted[..i])
    {
      assert sorted[..i + 1][..i] == sorted[..i];
      digest := digest + sorted[i].path;
      digest := digest + "\0";
      digest := digest + sorted[i].hash;
      digest := digest + "\n";
    }
    assert sorted[..|sorted|] == sorted;
  }

  predicate Clean(items: Items) {
    forall item :: item in items ==> '\0' !in item.path && '\n' !in item.hash
  }

  /** Where `c` first occurs, or the length of the text. */
  function IndexOf(text: string, c: char): (i: nat)
    ensures i <= |text| && c !in text[..i] && (i < |text| ==> text[i] == c)
  {
    if text == "" || text[0] == c then 0
    else
      assert text[..IndexOf(text[1..], c) + 1] == [text[0]] + text[1..][..IndexOf(text[1..], c)];
      IndexOf(text[1..], c) + 1
  }

  lemma IndexOfSeparator(a: string, c: char, rest: string)
    requires c !in a
    ensures IndexOf(a + [c] + rest, c) == |a|
  {
    var text := a + [c] + rest;
    var i := IndexOf(text, c);
    assert text[|a|] == c;
    assert forall k :: 0 <= k < |a| ==> text[k] == a[k] && text[k] != c;
    assert forall k :: 0 <= k < i ==> text[..i][k] == text[k] && text[k] != c;
  }

  /** Reads records back: a path up to a NUL, then a hash up to a newline. */
  function Parsed(text: string): Items
    decreases |text|
  {
    var n := IndexOf(text, '\0');
    if n == |text| then []
    else
      var rest := text[n + 1..];
      var m := IndexOf(rest, '\n');
      if m == |rest| then [] else [Item(text[..n], rest[..m])] + Parsed(rest[m + 1..])
  }

  lemma FirstRecord(item: Item, rest: string)
    requires Clean([item])
    ensures Parsed(Record(item) + rest) == [item] + Parsed(rest)
  {
    hide IndexOf;
    assert item in [item];
    var tail := item.hash + ['\n'] + rest;
    assert Record(item) + rest == item.path + ['\0'] + tail;
    SplitAtSeparator(item.path, '\0', tail);
    SplitAtSeparator(item.hash, '\n', rest);
  }

  lemma SplitAtSeparator(a: string, c: char, rest: string)
    requires c !in a
    ensures var text, n := a + [c] + rest, IndexOf(a + [c] + rest, c);
            n == |a| < |text| && text[..n] == a && text[n + 1..] == rest
  {
    IndexOfSeparator(a, c, rest);
    hide IndexOf;
  }

  lemma {:induction false} SerialisedFront(item: Item, items: Items)
    ensures Serialised([item] + items) == Record(item) + Serialised(items)
  {
    hide Record;
    var all := [item] + items;
    if items == [] {
      assert all == [item];
      SerialisedOne(item);
    } else {
      SerialisedFront(item, items[..|items| - 1]);
      assert all[..|all| - 1] == [item] + items[..|items| - 1];
    }
  }

  /** Reading back what was fed gives the items again. */
  lemma {:induction false} ParsedIsTheInverse(items: Items)
    requires Clean(items)
    ensures Parsed(Serialised(items)) == items
  {
    if items != [] {
      var rest := items[1..];
      assert items == [items[0]] + rest;
      SerialisedFront(items[0], rest);
      FirstRecord(items[0], Serialised(rest));
      ParsedIsTheInverse(rest);
    }
  }

  /** The text does not depend on the order in which the dict was filled. */
  lemma OrderDoesNotMatter(a: Items, b: Items)
    requires Distinct(a) && Distinct(b) && Dict(a) == Dict(b)
    ensures VersionText(a) == VersionText(b)
  {
    SortSorts(a);
    SortSorts(b);
    DictHasItems(a);
    DictHasItems(b);
    SortedListingIsUnique(Sort(a), Sort(b));
  }

  /** With NUL-free paths and newline-free hashes, two dicts feed the digest the same text
      exactly when they are the same dict. */
  lemma VersionTextIsCanonical(a: Items, b: Items)
    requires Distinct(a) && Distinct(b) && Clean(a) && Clean(b)
    ensures VersionText(a) == VersionText(b) <==> Dict(a) == Dict(b)
  {
    SortSorts(a);
    SortSorts(b);
    hide Sort, Sorted, Dict, Serialised, Parsed;
    if Dict(a) == Dict(b) {
      OrderDoesNotMatter(a, b);
    }
    if VersionText(a) == VersionText(b) {
      ParsedIsTheInverse(Sort(a));
      ParsedIsTheInverse(Sort(b));
      SameItemsSameDict(a, b);
    }
  }

  /** Neither condition can go: a newline in a hash, or a NUL in a path, makes two different
      dicts feed the same text. */
  lemma SeparatorsMustNotOccurInside()
    ensures var a, b := [Item("a", "h\nb\0g")], [Item("a", "h"), Item("b", "g")];
            Distinct(a) && Distinct(b) && Dict(a) != Dict(b) && VersionText(a) == VersionText(b)
    ensures var a, b := [Item("a\0b", "h")], [Item("a", "b\0h")];
            Distinct(a) && Distinct(b) && Dict(a) != Dict(b) && VersionText(a) == VersionText(b)
  {
    NewlineInsideCollides();
    NulInsideCollides();
    hide Dict, VersionText, Distinct;
  }

  lemma NewlineInsideCollides()
    ensures var a, b := [Item("a", "h\nb\0g")], [Item("a", "h"), Item("b", "g")];
            Distinct(a) && Distinct(b) && Dict(a) != Dict(b) && VersionText(a) == VersionText(b)
  {
    var a, b := [Item("a", "h\nb\0g")], [Item("a", "h"), Item("b", "g")];
    assert Dict(a)["a"] == "h\nb\0g" && Dict(b)["a"] == "h" && "h"[..1] == "h\nb\0g"[..1] && |"h"| != |"h\nb\0g"|;
    assert Sort(a) == a;
    assert Sort(b[1..]) == b[1..];
    assert Below("a", "b");
    assert Sort(b) == b;
    SerialisedOne(a[0]);
    SerialisedOne(b[0]);
    assert b[..1] == [b[0]];
    assert Serialised(b) == Record(b[0]) + Record(b[1]);
    assert Record(a[0]) == Record(b[0]) + Record(b[1]);
  }

  lemma NulInsideCollides()
    ensures var a, b := [Item("a\0b", "h")], [Item("a", "b\0h")];
            Distinct(a) && Distinct(b) && Dict(a) != Dict(b) && VersionText(a) == VersionText(b)
  {
    var a, b := [Item("a\0b", "h")], [Item("a", "b\0h")];
    assert |"a"| != |"a\0b"|;
    assert "a" in Dict(b) && "a" !in Dict(a);
    assert Sort(a) == a && Sort(b) == b;
    SerialisedOne(a[0]);
    SerialisedOne(b[0]);
    assert Record(a[0]) == Record(b[0]);
  }

  lemma SerialisedOne(item: Item)
    ensures Serialised([item]) == Record(item)
  {
    assert [item][..0] == [];
    assert Serialised([]) == "";
    assert "" + Record(item) == Record(item);
  }
}
