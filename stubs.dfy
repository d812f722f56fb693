/**
 * Declaration stubs: the syntax-only, unresolved tree that the parser builds for one
 * file. Every stub but the file stub has a parent link; the chain of parents of a
 * stub always ends at a file stub.
 */
module Stubs {
  import opened Wrappers
  import opened FqNames

  datatype Stub =
    | File(file: FileStub)
    | Class(cls: ClassStub)
    | Object(obj: ObjectStub)
    | Function(fun: FunctionStub)
    | Property(prop: PropertyStub)
    | Annotation(ann: AnnotationEntryStub)
      /** Any other node (a class body, a modifier list, ...), seen only as a link in a
          chain of parents. */
    | Other(parent: Stub)

  /** The root of a file's tree: the file and the package it declares. */
  datatype FileStub = FileStub(packageFqName: FqName)

  datatype ClassStub = ClassStub(
    name: Option<string>,
    fqName: Option<FqName>,
    superNames: seq<string>,
    parent: Stub)

  datatype ObjectStub = ObjectStub(
    name: Option<string>,
    fqName: Option<FqName>,
    superNames: seq<string>,
    isTopLevel: bool,
    isClassObject: bool,
    parent: Stub)

  datatype FunctionStub = FunctionStub(
    name: Option<string>,
    fqName: Option<FqName>,
    isTopLevel: bool,
    isExtension: bool,
    isProbablyNothingType: bool,
    parent: Stub)

  datatype PropertyStub = PropertyStub(
    name: Option<string>,
    fqName: Option<FqName>,
    isTopLevel: bool,
    hasReceiverTypeRef: bool,
    isProbablyNothingType: bool,
    parent: Stub)

  datatype AnnotationEntryStub = AnnotationEntryStub(shortName: string, parent: Stub)

  /** The parent link; absent only for the file stub. */
  function ParentOf(s: Stub): (r: Option<Stub>)
    ensures r.None? <==> s.File?
  {
    match s
    case File(_) => None
    case Class(c) => Some(c.parent)
    case Object(o) => Some(o.parent)
    case Function(f) => Some(f.parent)
    case Property(p) => Some(p.parent)
    case Annotation(a) => Some(a.parent)
    case Other(p) => Some(p)
  }

  /** The stub `n` parent links above `s`, if the chain is that long. */
  function Ancestor(s: Stub, n: nat): Option<Stub>
    decreases n
  {
    if n == 0 then Some(s)
    else match ParentOf(s)
      case None => None
      case Some(p) => Ancestor(p, n - 1)
  }

  /** Declaration stubs, which have a qualified-name field (possibly empty): classes,
      objects, functions and properties. */
  predicate IsDeclaration(s: Stub)
  {
    s.Class? || s.Object? || s.Function? || s.Property?
  }

  function FqNameOf(s: Stub): Option<FqName>
    requires IsDeclaration(s)
  {
    match s
    case Class(c) => c.fqName
    case Object(o) => o.fqName
    case Function(f) => f.fqName
    case Property(p) => p.fqName
  }

  predicate IsClassOrObject(s: Stub)
  {
    s.Class? || s.Object?
  }

  function SuperNamesOf(s: Stub): seq<string>
    requires IsClassOrObject(s)
  {
    if s.Class? then s.cls.superNames else s.obj.superNames
  }
}
