/** What parsing one file yields, the graph rows it becomes, and what the index knows of
    parsing and hashing. */
module ParsedFiles {
  import opened Options
  import opened DottedNames
  import opened ImportBindings
  import opened GraphStore

  datatype Docstring = Docstring(text: string, summary: string)

  datatype Parameter = Parameter(name: string, annotation: Option<string>, default: Option<string>)

  datatype ParsedClass = ParsedClass(name: string, qualifiedName: string, bases: seq<string>,
                                     lineStart: int, lineEnd: int, docstring: Option<Docstring>)

  datatype ParsedCallable = ParsedCallable(name: string, qualifiedName: string, parameters: seq<Parameter>,
                                           lineStart: int, lineEnd: int, docstring: Option<Docstring>)

  datatype ParsedCall = ParsedCall(caller: string, callee: string)

  datatype ParsedFile = ParsedFile(
    path: string, home: string, contentHash: string, lineStart: int, lineEnd: int,
    docstring: Option<Docstring>,
    classes: seq<ParsedClass>, functions: seq<ParsedCallable>, methods: seq<ParsedCallable>,
    imports: seq<ParsedImport>, calls: seq<ParsedCall>)

  datatype ParseOutcome = Parsed(file: ParsedFile) | ParseError(message: string)

  datatype SourceFile = SourceFile(path: string, content: string)

  /** The deterministic hash and parser of a pass, as functions. */
  datatype Tools = Tools(hash: string -> string, parse: (string, string) -> ParseOutcome)

  /** The part of a qualified name after its last dot. */
  function LastSegment(qualifiedName: string): string {
    if '.' in qualifiedName && |Parent(qualifiedName)| < |qualifiedName| then qualifiedName[|Parent(qualifiedName)| + 1..]
    else qualifiedName
  }

  predicate NamedByLastSegment(f: ParsedFile) {
    && (forall i :: 0 <= i < |f.classes| ==> f.classes[i].name == LastSegment(f.classes[i].qualifiedName))
    && (forall i :: 0 <= i < |f.functions| ==> f.functions[i].name == LastSegment(f.functions[i].qualifiedName))
    && (forall i :: 0 <= i < |f.methods| ==> f.methods[i].name == LastSegment(f.methods[i].qualifiedName))
  }

  /** A parse records the path and hash it was made from and names entities by their last
      segment; distinct contents have distinct hashes. */
  ghost predicate GoodTools(tools: Tools) {
    && (forall a, b :: tools.hash(a) == tools.hash(b) ==> a == b)
    && (forall p, c :: tools.parse(p, c).Parsed? ==>
          tools.parse(p, c).file.path == p && tools.parse(p, c).file.contentHash == tools.hash(c)
          && NamedByLastSegment(tools.parse(p, c).file))
  }

  // ---------------------------------------------------------------------------
  // Rows.
  // ---------------------------------------------------------------------------

  function ModuleShortName(f: ParsedFile): string {
    if f.home == "" then f.path else LastSegment(f.home)
  }

  function EntityRow(kind: Kind, qn: string, path: string, name: string, first: int, last: int, bases: seq<string>): Row {
    Row(Key(kind, qn, 0), Node(path, EntityProps(name, first, last, bases)))
  }

  function CallableRows(kind: Kind, items: seq<ParsedCallable>, path: string): seq<Row> {
    seq(|items|, i requires 0 <= i < |items| =>
      EntityRow(kind, items[i].qualifiedName, path, items[i].name, items[i].lineStart, items[i].lineEnd, []))
  }

  function ClassRows(items: seq<ParsedClass>, path: string): seq<Row> {
    seq(|items|, i requires 0 <= i < |items| =>
      EntityRow(ClassKind, items[i].qualifiedName, path, items[i].name, items[i].lineStart, items[i].lineEnd, items[i].bases))
  }

  function ParameterRows(items: seq<ParsedCallable>, path: string): seq<Row> {
    if items == [] then []
    else
      var item := items[|items| - 1];
      ParameterRows(items[..|items| - 1], path)
      + seq(|item.parameters|, i requires 0 <= i < |item.parameters| =>
          Row(Key(ParameterKind, item.qualifiedName, i),
              Node(path, ParameterProps(item.parameters[i].name, item.parameters[i].annotation, item.parameters[i].default))))
  }

  function DocstringRow(owner: string, doc: Option<Docstring>, path: string): seq<Row> {
    if doc.None? then []
    else [Row(Key(DocstringKind, owner, 0), Node(path, DocstringProps(doc.value.text, doc.value.summary)))]
  }

  function ClassDocstringRows(items: seq<ParsedClass>, path: string): seq<Row> {
    if items == [] then []
    else
      var item := items[|items| - 1];
      ClassDocstringRows(items[..|items| - 1], path) + DocstringRow(item.qualifiedName, item.docstring, path)
  }

  function CallableDocstringRows(items: seq<ParsedCallable>, path: string): seq<Row> {
    if items == [] then []
    else
      var item := items[|items| - 1];
      CallableDocstringRows(items[..|items| - 1], path) + DocstringRow(item.qualifiedName, item.docstring, path)
  }

  function ImportRows(imports: seq<ParsedImport>, path: string): seq<Row> {
    seq(|imports|, i requires 0 <= i < |imports| =>
      Row(Key(ImportKind, path, i), Node(path, ImportProps(Or(imports[i].source, ""), imports[i].names, imports[i].alias))))
  }

  /** The rows of one kind that a parsed file contributes, in source order. */
  function RowsOfKind(f: ParsedFile, kind: Kind): seq<Row> {
    match kind
    case FileKind => [Row(Key(FileKind, f.path, 0), Node(f.path, FileProps(f.contentHash)))]
    case ModuleKind => [EntityRow(ModuleKind, f.home, f.path, ModuleShortName(f), f.lineStart, f.lineEnd, [])]
    case ClassKind => ClassRows(f.classes, f.path)
    case FunctionKind => CallableRows(FunctionKind, f.functions, f.path)
    case MethodKind => CallableRows(MethodKind, f.methods, f.path)
    case ParameterKind => ParameterRows(f.functions, f.path) + ParameterRows(f.methods, f.path)
    case DocstringKind =>
      DocstringRow(f.home, f.docstring, f.path) + ClassDocstringRows(f.classes, f.path)
      + CallableDocstringRows(f.functions, f.path) + CallableDocstringRows(f.methods, f.path)
    case ImportKind => ImportRows(f.imports, f.path)
  }

  /** The order in which the pass writes its batches. */
  const WRITE_ORDER: seq<Kind> :=
    [FileKind, ModuleKind, ClassKind, FunctionKind, MethodKind, ParameterKind, DocstringKind, ImportKind]

  predicate RowsFit(rows: seq<Row>, kind: Kind, path: string) {
    forall r :: r in rows ==> r.key.kind == kind && r.node.filePath == path
  }

  lemma {:induction false} ParameterRowsFit(items: seq<ParsedCallable>, path: string)
    ensures RowsFit(ParameterRows(items, path), ParameterKind, path)
  {
    if items != [] {
      ParameterRowsFit(items[..|items| - 1], path);
    }
  }

  lemma {:induction false} ClassDocstringRowsFit(items: seq<ParsedClass>, path: string)
    ensures RowsFit(ClassDocstringRows(items, path), DocstringKind, path)
  {
    if items != [] {
      ClassDocstringRowsFit(items[..|items| - 1], path);
    }
  }

  lemma {:induction false} CallableDocstringRowsFit(items: seq<ParsedCallable>, path: string)
    ensures RowsFit(CallableDocstringRows(items, path), DocstringKind, path)
  {
    if items != [] {
      CallableDocstringRowsFit(items[..|items| - 1], path);
    }
  }

  /** Every row carries its own kind and its file's path. */
  lemma RowsOfKindFit(f: ParsedFile, kind: Kind)
    ensures RowsFit(RowsOfKind(f, kind), kind, f.path)
  {
    ParameterRowsFit(f.functions, f.path);
    ParameterRowsFit(f.methods, f.path);
    ClassDocstringRowsFit(f.classes, f.path);
    CallableDocstringRowsFit(f.functions, f.path);
    CallableDocstringRowsFit(f.methods, f.path);
  }

  /** One kind's rows over a batch of files, in batch order. */
  function KindBatch(files: seq<ParsedFile>, kind: Kind): seq<Row> {
    if files == [] then []
    else KindBatch(files[..|files| - 1], kind) + RowsOfKind(files[|files| - 1], kind)
  }

  /** The batches of several kinds, one after the other. */
  function Batches(files: seq<ParsedFile>, kinds: seq<Kind>): seq<Row> {
    if kinds == [] then []
    else Batches(files, kinds[..|kinds| - 1]) + KindBatch(files, kinds[|kinds| - 1])
  }

  /** What the last file of the batch that has a row for `k` writes there. */
  function BatchNode(files: seq<ParsedFile>, k: Key): Option<Node> {
    if files == [] then None
    else
      var own := LastNode(RowsOfKind(files[|files| - 1], k.kind), k);
      if own.Some? then own else BatchNode(files[..|files| - 1], k)
  }

  lemma {:induction false} KindBatchNode(files: seq<ParsedFile>, kind: Kind, k: Key)
    ensures LastNode(KindBatch(files, kind), k) == if kind == k.kind then BatchNode(files, k) else None
  {
    if files != [] {
      var f := files[|files| - 1];
      KindBatchNode(files[..|files| - 1], kind, k);
      LastNodeOfAppend(KindBatch(files[..|files| - 1], kind), RowsOfKind(f, kind), k);
      if kind != k.kind {
        RowsOfKindFit(f, kind);
        LastNodeIsARow(RowsOfKind(f, kind), k);
      }
    }
  }

  /** Writing kind by kind leaves, at each key, what writing file by file would. */
  lemma {:induction false} BatchesNode(files: seq<ParsedFile>, kinds: seq<Kind>, k: Key)
    requires forall i, j :: 0 <= i < j < |kinds| ==> kinds[i] != kinds[j]
    ensures LastNode(Batches(files, kinds), k) == if k.kind in kinds then BatchNode(files, k) else None
  {
    if kinds != [] {
      var n := |kinds| - 1;
      BatchesNode(files, kinds[..n], k);
      KindBatchNode(files, kinds[n], k);
      BatchesStep(files, kinds, k);
      assert k.kind in kinds <==> k.kind in kinds[..n] || k.kind == kinds[n] by {
        assert kinds == kinds[..n] + [kinds[n]];
      }
      assert kinds[n] !in kinds[..n];
    }
  }

  lemma BatchesStep(files: seq<ParsedFile>, kinds: seq<Kind>, k: Key)
    requires kinds != []
    ensures var n := |kinds| - 1;
            var own := LastNode(KindBatch(files, kinds[n]), k);
            LastNode(Batches(files, kinds), k) == if own.Some? then own else LastNode(Batches(files, kinds[..n]), k)
  {
    LastNodeOfAppend(Batches(files, kinds[..|kinds| - 1]), KindBatch(files, kinds[|kinds| - 1]), k);
  }

  lemma WriteOrderIsComplete(kind: Kind)
    ensures kind in WRITE_ORDER
    ensures forall i, j :: 0 <= i < j < |WRITE_ORDER| ==> WRITE_ORDER[i] != WRITE_ORDER[j]
  {
    assert WRITE_ORDER[0] == FileKind && WRITE_ORDER[1] == ModuleKind && WRITE_ORDER[2] == ClassKind
           && WRITE_ORDER[3] == FunctionKind && WRITE_ORDER[4] == MethodKind && WRITE_ORDER[5] == ParameterKind
           && WRITE_ORDER[6] == DocstringKind && WRITE_ORDER[7] == ImportKind;
  }

  /** The import edges a file contributes. */
  function ImportEdges(f: ParsedFile): set<Edge> {
    set i | 0 <= i < |f.imports| :: Edge(Imports, Key(ModuleKind, f.home, 0), Key(ImportKind, f.path, i))
  }
}
