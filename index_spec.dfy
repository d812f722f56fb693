/**
 * What each stub kind contributes to the indexes: the exact list of occurrences, in
 * the order they are reported, and what that list means index by index.
 */
module IndexSpec {
  import opened Wrappers
  import opened FqNames
  import opened Stubs
  import opened Indexes

  /** The synthetic short name under which every class object is indexed. */
  const ClassObjectMarker: Segment := "object"

  /** Why a class object cannot be indexed: its tree does not have the expected shape. */
  datatype Defect =
      /** A link of the three-step walk to the owner is missing. */
    | BrokenParentChain
      /** The stub three links up is not a class, object, function or property. */
    | OwnerNotDeclaration

  /** One occurrence keyed by a short name, when there is one. */
  function EmitName(index: IndexKey, name: Option<string>): seq<Occurrence>
  {
    match name
    case None => []
    case Some(n) => [Occurrence(index, n)]
  }

  /** One occurrence keyed by the string form of a qualified name, when there is one. */
  function EmitFqName(index: IndexKey, fqName: Option<FqName>): seq<Occurrence>
  {
    EmitName(index, StringOf(fqName))
  }

  // ---------------------------------------------------------------- files

  function FileOccurrences(f: FileStub): seq<Occurrence>
  {
    [Occurrence(ExactPackages, AsString(f.packageFqName))]
  }

  // ---------------------------------------------------- shared class helpers

  /** One supertype-reference occurrence per written super name, in order. */
  function SuperNameOccurrences(superNames: seq<string>): seq<Occurrence>
  {
    if superNames == [] then []
    else SuperNameOccurrences(superNames[..|superNames| - 1])
         + [Occurrence(SuperClass, superNames[|superNames| - 1])]
  }

  /** The package of the file a stub sits in directly, if its parent is a file stub. */
  function DirectFilePackage(s: Stub): (r: Option<FqName>)
    ensures r.Some? <==> ParentOf(s).Some? && ParentOf(s).value.File?
    ensures r.Some? ==> r.value == ParentOf(s).value.file.packageFqName
  {
    match ParentOf(s)
    case Some(File(f)) => Some(f.packageFqName)
    case _ => None
  }

  function PackageOccurrences(s: Stub): seq<Occurrence>
  {
    EmitFqName(ClassByPackage, DirectFilePackage(s))
  }

  // ---------------------------------------------------------------- classes

  function ClassOccurrences(c: ClassStub): seq<Occurrence>
  {
    EmitName(ClassShortName, c.name)
    + EmitFqName(FullClassName, c.fqName)
    + SuperNameOccurrences(c.superNames)
    + PackageOccurrences(Class(c))
  }

  // ---------------------------------------------------------------- objects

  /** The owner of a class object: the stub exactly three parent links up, which must
      be a class, object, function or property stub (its qualified name may be absent). */
  function ClassObjectOwner(o: ObjectStub): (r: Result<Stub, Defect>)
    ensures r.Ok? <==> Ancestor(Object(o), 3).Some? && IsDeclaration(Ancestor(Object(o), 3).value)
    ensures r.Ok? ==> Ancestor(Object(o), 3) == Some(r.value)
    ensures r == Err(BrokenParentChain) <==> Ancestor(Object(o), 3).None?
  {
    var p1 := o.parent;
    match ParentOf(p1)
    case None => Err(BrokenParentChain)
    case Some(p2) =>
      match ParentOf(p2)
      case None => Err(BrokenParentChain)
      case Some(p3) => if IsDeclaration(p3) then Ok(p3) else Err(OwnerNotDeclaration)
  }

  /** The short name and qualified name under which an object is indexed. A class
      object is renamed to the marker and, when its owner has a qualified name, placed
      directly below it. */
  function EffectiveNames(o: ObjectStub): Result<(Option<string>, Option<FqName>), Defect>
  {
    if !o.isClassObject then Ok((o.name, o.fqName))
    else
      match ClassObjectOwner(o)
      case Err(d) => Err(d)
      case Ok(owner) =>
        var ownerFqName := FqNameOf(owner);
        Ok((Some(ClassObjectMarker),
            if ownerFqName.Some? then Some(Child(ownerFqName.value, ClassObjectMarker)) else o.fqName))
  }

  /** The short-name occurrences of an object: the class short-name index always, and
      the top-level object index too when the object is marked top-level. */
  function ObjectNameOccurrences(o: ObjectStub, name: Option<string>): seq<Occurrence>
  {
    EmitName(ClassShortName, name)
    + EmitName(TopLevelObjectShortName, if o.isTopLevel then name else None)
  }

  /** What an object contributes once its effective names are known. */
  function ObjectOccurrencesNamed(o: ObjectStub, name: Option<string>, fqName: Option<FqName>): seq<Occurrence>
  {
    ObjectNameOccurrences(o, name)
    + EmitFqName(FullClassName, fqName)
    + SuperNameOccurrences(o.superNames)
    + PackageOccurrences(Object(o))
  }

  function ObjectOccurrences(o: ObjectStub): Result<seq<Occurrence>, Defect>
  {
    match EffectiveNames(o)
    case Err(d) => Err(d)
    case Ok((name, fqName)) => Ok(ObjectOccurrencesNamed(o, name, fqName))
  }

  // ------------------------------------------------------------- functions

  /** A named function goes to the short-name index and, when top-level, to exactly
      one of the extension and non-extension top-level indexes; its qualified name goes
      to the full-name index whenever there is one. */
  function FunctionOccurrences(f: FunctionStub): seq<Occurrence>
  {
    EmitName(if f.isExtension then TopLevelExtensionFunctionShortName
             else TopLevelNonExtensionFunctionShortName,
             if f.isTopLevel then f.name else None)
    + EmitName(FunctionShortName, f.name)
    + EmitName(ProbablyNothingFunctionShortName, if f.isProbablyNothingType then f.name else None)
    + EmitFqName(TopLevelFunctionsFqName, f.fqName)
  }

  // ------------------------------------------------------------ properties

  /** As for functions, with the receiver type in place of the extension flag, except
      that the qualified name is indexed only for a top-level property. */
  function PropertyOccurrences(p: PropertyStub): seq<Occurrence>
  {
    EmitName(if p.hasReceiverTypeRef then TopLevelExtensionPropertyShortName
             else TopLevelNonExtensionPropertyShortName,
             if p.isTopLevel then p.name else None)
    + EmitName(PropertyShortName, p.name)
    + EmitName(ProbablyNothingPropertyShortName, if p.isProbablyNothingType then p.name else None)
    + EmitFqName(TopLevelPropertiesFqName, if p.isTopLevel then p.fqName else None)
  }

  // ----------------------------------------------------------- annotations

  function AnnotationOccurrences(a: AnnotationEntryStub): seq<Occurrence>
  {
    [Occurrence(Annotations, a.shortName)]
  }
}
