/**
 * The extractor: one operation per stub kind, each reporting its occurrences to the
 * sink one by one. Each operation appends exactly the list its specification in
 * IndexSpec gives, and nothing else changes.
 */
module StubIndexServiceImpl {
  import opened Wrappers
  import opened FqNames
  import opened Stubs
  import opened Indexes
  import opened IndexSpec

  method IndexFile(stub: FileStub, sink: IndexSink)
    modifies sink
    ensures sink.occurrences == old(sink.occurrences) + [Occurrence(ExactPackages, AsString(stub.packageFqName))]
  {
    var packageFqName := stub.packageFqName;
    sink.Occur(ExactPackages, AsString(packageFqName));
  }

  method IndexClass(stub: ClassStub, sink: IndexSink)
    modifies sink
    ensures sink.occurrences == old(sink.occurrences) + ClassOccurrences(stub)
  {
    var name := stub.name;
    if name.Some? {
      sink.Occur(ClassShortName, name.value);
    }
    var fqn := stub.fqName;
    if fqn.Some? {
      sink.Occur(FullClassName, AsString(fqn.value));
    }
    ghost var start, named := old(sink.occurrences), sink.occurrences;
    IndexSuperNames(Class(stub), sink);
    RecordClassOrObjectByPackage(Class(stub), sink);
    ghost var n, f := EmitName(ClassShortName, stub.name), EmitFqName(FullClassName, stub.fqName);
    ghost var u, p := SuperNameOccurrences(stub.superNames), PackageOccurrences(Class(stub));
    assert named == start + n + f;
    AppendAssoc(start, n + f + u, p);
    AppendAssoc(start, n + f, u);
    AppendAssoc(start, n, f);
  }

  /** On a class object whose tree is malformed, fails with the defect and reports
      nothing. */
  method IndexObject(stub: ObjectStub, sink: IndexSink) returns (outcome: Outcome<Defect>)
    modifies sink
    ensures outcome.Pass? <==> ObjectOccurrences(stub).Ok?
    ensures outcome.Fail? ==> outcome.error == ObjectOccurrences(stub).error
    ensures sink.occurrences
         == old(sink.occurrences) + (if outcome.Pass? then ObjectOccurrences(stub).value else [])
  {
    var name := stub.name;
    var fqName := stub.fqName;

    if stub.isClassObject {
      var owner := ClassObjectOwner(stub);
      if owner.Err? {
        return Fail(owner.error);
      }
      name := Some(ClassObjectMarker);
      var parentFqName := FqNameOf(owner.value);
      if parentFqName.Some? {
        fqName := Some(Child(parentFqName.value, ClassObjectMarker));
      }
    }
    assert EffectiveNames(stub) == Ok((name, fqName));
    IndexObjectNamed(stub, name, fqName, sink);
    outcome := Pass;
  }

  /** The reporting half of IndexObject, once the object's effective names are known. */
  method IndexObjectNamed(stub: ObjectStub, name: Option<string>, fqName: Option<FqName>, sink: IndexSink)
    modifies sink
    ensures sink.occurrences == old(sink.occurrences) + ObjectOccurrencesNamed(stub, name, fqName)
  {
    ghost var start := sink.occurrences;
    if name.Some? {
      sink.Occur(ClassShortName, name.value);
      if stub.isTopLevel {
        sink.Occur(TopLevelObjectShortName, name.value);
      }
      assert sink.occurrences == start + ObjectNameOccurrences(stub, name);
    }
    ghost var n, f := ObjectNameOccurrences(stub, name), EmitFqName(FullClassName, fqName);
    if fqName.Some? {
      sink.Occur(FullClassName, AsString(fqName.value));
    }
    assert sink.occurrences == start + n + f;
    IndexSuperNames(Object(stub), sink);
    RecordClassOrObjectByPackage(Object(stub), sink);
    ghost var u, p := SuperNameOccurrences(stub.superNames), PackageOccurrences(Object(stub));
    AppendAssoc(start, n + f + u, p);
    AppendAssoc(start, n + f, u);
    AppendAssoc(start, n, f);
  }

  method IndexSuperNames(stub: Stub, sink: IndexSink)
    requires IsClassOrObject(stub)
    modifies sink
    ensures sink.occurrences == old(sink.occurrences) + SuperNameOccurrences(SuperNamesOf(stub))
  {
    var superNames := SuperNamesOf(stub);
    for i := 0 to |superNames|
      invariant sink.occurrences == old(sink.occurrences) + SuperNameOccurrences(superNames[..i])
    {
      sink.Occur(SuperClass, superNames[i]);
      assert superNames[..i + 1][..i] == superNames[..i];
    }
    assert superNames[..|superNames|] == superNames;
  }

  method RecordClassOrObjectByPackage(stub: Stub, sink: IndexSink)
    requires IsClassOrObject(stub)
    modifies sink
    ensures sink.occurrences == old(sink.occurrences) + PackageOccurrences(stub)
  {
    var parentStub := ParentOf(stub);
    if parentStub.Some? && parentStub.value.File? {
      var packageFqName := parentStub.value.file.packageFqName;
      sink.Occur(ClassByPackage, AsString(packageFqName));
    }
  }

  method IndexFunction(stub: FunctionStub, sink: IndexSink)
    modifies sink
    ensures sink.occurrences == old(sink.occurrences) + FunctionOccurrences(stub)
  {
    ghost var placement := if stub.isExtension then TopLevelExtensionFunctionShortName
                           else TopLevelNonExtensionFunctionShortName;
    ghost var start := sink.occurrences;
    ghost var top := EmitName(placement, if stub.isTopLevel then stub.name else None);
    ghost var short := EmitName(FunctionShortName, stub.name);
    ghost var nothing := EmitName(ProbablyNothingFunctionShortName, if stub.isProbablyNothingType then stub.name else None);
    var name := stub.name;
    if name.Some? {
      if stub.isTopLevel {
        if !stub.isExtension {
          sink.Occur(TopLevelNonExtensionFunctionShortName, name.value);
        } else {
          sink.Occur(TopLevelExtensionFunctionShortName, name.value);
        }
      }
      sink.Occur(FunctionShortName, name.value);
      if stub.isProbablyNothingType {
        sink.Occur(ProbablyNothingFunctionShortName, name.value);
      }
    }
    AppendAssoc(start, top + short, nothing);
    AppendAssoc(start, top, short);
    assert sink.occurrences == start + (top + short + nothing);
    AppendAssoc(start, top + short + nothing, EmitFqName(TopLevelFunctionsFqName, stub.fqName));
    var topFqName := stub.fqName;
    if topFqName.Some? {
      sink.Occur(TopLevelFunctionsFqName, AsString(topFqName.value));
    }
  }

  method IndexProperty(stub: PropertyStub, sink: IndexSink)
    modifies sink
    ensures sink.occurrences == old(sink.occurrences) + PropertyOccurrences(stub)
  {
    ghost var placement := if stub.hasReceiverTypeRef then TopLevelExtensionPropertyShortName
                           else TopLevelNonExtensionPropertyShortName;
    ghost var start := sink.occurrences;
    ghost var top := EmitName(placement, if stub.isTopLevel then stub.name else None);
    ghost var short := EmitName(PropertyShortName, stub.name);
    ghost var nothing := EmitName(ProbablyNothingPropertyShortName, if stub.isProbablyNothingType then stub.name else None);
    var name := stub.name;
    if name.Some? {
      if stub.isTopLevel {
        if !stub.hasReceiverTypeRef {
          sink.Occur(TopLevelNonExtensionPropertyShortName, name.value);
        } else {
          sink.Occur(TopLevelExtensionPropertyShortName, name.value);
        }
      }
      sink.Occur(PropertyShortName, name.value);
      if stub.isProbablyNothingType {
        sink.Occur(ProbablyNothingPropertyShortName, name.value);
      }
    }
    AppendAssoc(start, top + short, nothing);
    AppendAssoc(start, top, short);
    assert sink.occurrences == start + (top + short + nothing);
    AppendAssoc(start, top + short + nothing, EmitFqName(TopLevelPropertiesFqName, if stub.isTopLevel then stub.fqName else None));
    if stub.isTopLevel {
      var topFqName := stub.fqName;
      if topFqName.Some? {
        sink.Occur(TopLevelPropertiesFqName, AsString(topFqName.value));
      }
    }
  }

  method IndexAnnotation(stub: AnnotationEntryStub, sink: IndexSink)
    modifies sink
    ensures sink.occurrences == old(sink.occurrences) + AnnotationOccurrences(stub)
  {
    sink.Occur(Annotations, stub.shortName);
  }
}
