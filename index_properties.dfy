/**
 * What the occurrence lists of IndexSpec mean, index by index: which keys each index
 * receives from one stub, in order, and that every other index receives nothing.
 */
module IndexProperties {
  import opened Wrappers
  import opened FqNames
  import opened Stubs
  import opened Indexes
  import opened IndexSpec

  // ------------------------------------------------------------ building blocks

  lemma EmitNameKeys(index: IndexKey, name: Option<string>, i: IndexKey)
    ensures Keys(EmitName(index, name), i) == if index == i then ToSeq(name) else []
  {
    if name.Some? { KeysSingle(Occurrence(index, name.value), i); }
  }

  lemma EmitFqNameKeys(index: IndexKey, fqName: Option<FqName>, i: IndexKey)
    ensures Keys(EmitFqName(index, fqName), i) == if index == i then ToSeq(StringOf(fqName)) else []
  {
    EmitNameKeys(index, StringOf(fqName), i);
  }

  /** The keys of a concatenation of four parts, part by part. */
  lemma KeysOfParts(a: seq<Occurrence>, b: seq<Occurrence>, c: seq<Occurrence>, d: seq<Occurrence>, i: IndexKey)
    ensures Keys(a + b + c + d, i) == Keys(a, i) + Keys(b, i) + Keys(c, i) + Keys(d, i)
  {
    KeysAppend(a + b + c, d, i);
    KeysAppend(a + b, c, i);
    KeysAppend(a, b, i);
  }

  /** The supertype index receives exactly the written super names, in order, and no
      other index receives anything. */
  lemma {:induction false} SuperNameKeys(superNames: seq<string>, i: IndexKey)
    ensures Keys(SuperNameOccurrences(superNames), i) == if i == SuperClass then superNames else []
    decreases |superNames|
  {
    if superNames != [] {
      var n := |superNames|;
      var prefix, name := superNames[..n - 1], superNames[n - 1];
      var last := Occurrence(SuperClass, name);
      var rest := SuperNameOccurrences(prefix);
      calc {
        Keys(SuperNameOccurrences(superNames), i);
        Keys(rest + [last], i);
        { KeysAppend(rest, [last], i); }
        Keys(rest, i) + Keys([last], i);
        { SuperNameKeys(prefix, i); KeysSingle(last, i); }
        (if i == SuperClass then prefix else []) + (if i == SuperClass then [name] else []);
        { assert prefix + [name] == superNames; }
        if i == SuperClass then superNames else [];
      }
    }
  }

  /** The class-by-package index receives the package of the file exactly when the
      stub's immediate parent is that file stub; being marked top-level plays no part. */
  lemma PackageKeys(s: Stub, i: IndexKey)
    ensures Keys(PackageOccurrences(s), i)
         == if i == ClassByPackage && ParentOf(s).Some? && ParentOf(s).value.File?
            then [AsString(ParentOf(s).value.file.packageFqName)] else []
  {
    EmitFqNameKeys(ClassByPackage, DirectFilePackage(s), i);
  }

  // ------------------------------------------------------------------- files

  lemma FileIndexing(f: FileStub, i: IndexKey)
    ensures Keys(FileOccurrences(f), i) == if i == ExactPackages then [AsString(f.packageFqName)] else []
  {
    KeysSingle(FileOccurrences(f)[0], i);
  }

  // ----------------------------------------------------------------- classes

  lemma ClassKeys(c: ClassStub, i: IndexKey)
    ensures Keys(ClassOccurrences(c), i)
         == (if i == ClassShortName then ToSeq(c.name) else [])
          + (if i == FullClassName then ToSeq(StringOf(c.fqName)) else [])
          + (if i == SuperClass then c.superNames else [])
          + (if i == ClassByPackage && c.parent.File? then [AsString(c.parent.file.packageFqName)] else [])
  {
    KeysOfParts(EmitName(ClassShortName, c.name), EmitFqName(FullClassName, c.fqName),
                SuperNameOccurrences(c.superNames), PackageOccurrences(Class(c)), i);
    EmitNameKeys(ClassShortName, c.name, i);
    EmitFqNameKeys(FullClassName, c.fqName, i);
    SuperNameKeys(c.superNames, i);
    PackageKeys(Class(c), i);
  }

  lemma ClassIndexing(c: ClassStub)
    ensures Keys(ClassOccurrences(c), ClassShortName) == ToSeq(c.name)
    ensures Keys(ClassOccurrences(c), FullClassName) == ToSeq(StringOf(c.fqName))
    ensures Keys(ClassOccurrences(c), SuperClass) == c.superNames
    ensures Keys(ClassOccurrences(c), ClassByPackage)
         == if c.parent.File? then [AsString(c.parent.file.packageFqName)] else []
    ensures forall i | i !in {ClassShortName, FullClassName, SuperClass, ClassByPackage}
              :: Keys(ClassOccurrences(c), i) == []
  {
    ClassKeys(c, ClassShortName);
    ClassKeys(c, FullClassName);
    ClassKeys(c, SuperClass);
    ClassKeys(c, ClassByPackage);
    forall i | i !in {ClassShortName, FullClassName, SuperClass, ClassByPackage}
      ensures Keys(ClassOccurrences(c), i) == []
    {
      ClassKeys(c, i);
    }
  }

  // ----------------------------------------------------------------- objects

  /** How an object is named in the indexes. A plain object keeps its own names. A
      class object is indexed under the marker; its qualified name is the marker
      directly below its owner's qualified name when the owner has one, and otherwise
      stays the object's own. */
  lemma ObjectNames(o: ObjectStub)
    ensures !o.isClassObject ==> EffectiveNames(o) == Ok((o.name, o.fqName))
    ensures o.isClassObject ==> (EffectiveNames(o).Ok? <==> ClassObjectOwner(o).Ok?)
    ensures o.isClassObject && EffectiveNames(o).Ok? ==>
              var ownerFqName := FqNameOf(ClassObjectOwner(o).value);
              var fqName := EffectiveNames(o).value.1;
              EffectiveNames(o).value.0 == Some(ClassObjectMarker)
              && (ownerFqName.None? ==> fqName == o.fqName)
              && (ownerFqName.Some? ==>
                    fqName.Some?
                    && AsString(fqName.value)
                       == if ownerFqName.value == Root then ClassObjectMarker
                          else AsString(ownerFqName.value) + "." + ClassObjectMarker)
  {
  }

  lemma ObjectNameKeys(o: ObjectStub, name: Option<string>, i: IndexKey)
    ensures Keys(ObjectNameOccurrences(o, name), i)
         == (if i == ClassShortName then ToSeq(name) else [])
          + (if i == TopLevelObjectShortName && o.isTopLevel then ToSeq(name) else [])
  {
    KeysAppend(EmitName(ClassShortName, name), EmitName(TopLevelObjectShortName, if o.isTopLevel then name else None), i);
    EmitNameKeys(ClassShortName, name, i);
    EmitNameKeys(TopLevelObjectShortName, if o.isTopLevel then name else None, i);
  }

  lemma ObjectKeys(o: ObjectStub, name: Option<string>, fqName: Option<FqName>, i: IndexKey)
    ensures Keys(ObjectOccurrencesNamed(o, name, fqName), i)
         == Keys(ObjectNameOccurrences(o, name), i)
          + (if i == FullClassName then ToSeq(StringOf(fqName)) else [])
          + (if i == SuperClass then o.superNames else [])
          + (if i == ClassByPackage && o.parent.File? then [AsString(o.parent.file.packageFqName)] else [])
  {
    KeysOfParts(ObjectNameOccurrences(o, name), EmitFqName(FullClassName, fqName),
                SuperNameOccurrences(o.superNames), PackageOccurrences(Object(o)), i);
    EmitFqNameKeys(FullClassName, fqName, i);
    SuperNameKeys(o.superNames, i);
    PackageKeys(Object(o), i);
  }

  lemma ObjectShortNameIndexing(o: ObjectStub, name: Option<string>, fqName: Option<FqName>)
    ensures Keys(ObjectOccurrencesNamed(o, name, fqName), ClassShortName) == ToSeq(name)
    ensures Keys(ObjectOccurrencesNamed(o, name, fqName), TopLevelObjectShortName)
         == if o.isTopLevel then ToSeq(name) else []
  {
    ObjectKeys(o, name, fqName, ClassShortName);
    ObjectNameKeys(o, name, ClassShortName);
    ObjectKeys(o, name, fqName, TopLevelObjectShortName);
    ObjectNameKeys(o, name, TopLevelObjectShortName);
  }

  /** The full-name, supertype and package indexes of an object. */
  lemma ObjectRemainingIndexing(o: ObjectStub, name: Option<string>, fqName: Option<FqName>)
    ensures Keys(ObjectOccurrencesNamed(o, name, fqName), FullClassName) == ToSeq(StringOf(fqName))
    ensures Keys(ObjectOccurrencesNamed(o, name, fqName), SuperClass) == o.superNames
    ensures Keys(ObjectOccurrencesNamed(o, name, fqName), ClassByPackage)
         == if o.parent.File? then [AsString(o.parent.file.packageFqName)] else []
  {
    ObjectKeys(o, name, fqName, FullClassName);
    ObjectNameKeys(o, name, FullClassName);
    ObjectKeys(o, name, fqName, SuperClass);
    ObjectNameKeys(o, name, SuperClass);
    ObjectKeys(o, name, fqName, ClassByPackage);
    ObjectNameKeys(o, name, ClassByPackage);
  }

  lemma ObjectOtherIndexes(o: ObjectStub, name: Option<string>, fqName: Option<FqName>, i: IndexKey)
    requires i !in {ClassShortName, TopLevelObjectShortName, FullClassName, SuperClass, ClassByPackage}
    ensures Keys(ObjectOccurrencesNamed(o, name, fqName), i) == []
  {
    ObjectKeys(o, name, fqName, i);
    ObjectNameKeys(o, name, i);
  }

  lemma ObjectIndexing(o: ObjectStub)
    ensures ObjectOccurrences(o).Err? <==> o.isClassObject && ClassObjectOwner(o).Err?
    ensures ObjectOccurrences(o).Err? ==> ObjectOccurrences(o).error == ClassObjectOwner(o).error
    ensures ObjectOccurrences(o).Ok? ==>
              var occ := ObjectOccurrences(o).value;
              var name := EffectiveNames(o).value.0;
              Keys(occ, ClassShortName) == ToSeq(name)
              && Keys(occ, TopLevelObjectShortName) == (if o.isTopLevel then ToSeq(name) else [])
              && Keys(occ, FullClassName) == ToSeq(StringOf(EffectiveNames(o).value.1))
              && Keys(occ, SuperClass) == o.superNames
              && Keys(occ, ClassByPackage)
                 == (if o.parent.File? then [AsString(o.parent.file.packageFqName)] else [])
    ensures ObjectOccurrences(o).Ok? ==>
              forall i | i !in {ClassShortName, TopLevelObjectShortName, FullClassName, SuperClass, ClassByPackage}
                :: Keys(ObjectOccurrences(o).value, i) == []
  {
    var names := EffectiveNames(o);
    if names.Ok? {
      var (name, fqName) := names.value;
      assert ObjectOccurrences(o) == Ok(ObjectOccurrencesNamed(o, name, fqName));
      ObjectShortNameIndexing(o, name, fqName);
      ObjectRemainingIndexing(o, name, fqName);
      forall i | i !in {ClassShortName, TopLevelObjectShortName, FullClassName, SuperClass, ClassByPackage}
        ensures Keys(ObjectOccurrencesNamed(o, name, fqName), i) == []
      {
        ObjectOtherIndexes(o, name, fqName, i);
      }
    }
  }

  // --------------------------------------------------------------- functions

  lemma FunctionKeys(f: FunctionStub, i: IndexKey)
    ensures Keys(FunctionOccurrences(f), i)
         == (if i == (if f.isExtension then TopLevelExtensionFunctionShortName
                      else TopLevelNonExtensionFunctionShortName) && f.isTopLevel then ToSeq(f.name) else [])
          + (if i == FunctionShortName then ToSeq(f.name) else [])
          + (if i == ProbablyNothingFunctionShortName && f.isProbablyNothingType then ToSeq(f.name) else [])
          + (if i == TopLevelFunctionsFqName then ToSeq(StringOf(f.fqName)) else [])
  {
    var placement := if f.isExtension then TopLevelExtensionFunctionShortName
                     else TopLevelNonExtensionFunctionShortName;
    var topName := if f.isTopLevel then f.name else None;
    var nothingName := if f.isProbablyNothingType then f.name else None;
    KeysOfParts(EmitName(placement, topName), EmitName(FunctionShortName, f.name),
                EmitName(ProbablyNothingFunctionShortName, nothingName),
                EmitFqName(TopLevelFunctionsFqName, f.fqName), i);
    EmitNameKeys(placement, topName, i);
    EmitNameKeys(FunctionShortName, f.name, i);
    EmitNameKeys(ProbablyNothingFunctionShortName, nothingName, i);
    EmitFqNameKeys(TopLevelFunctionsFqName, f.fqName, i);
  }

  /** A named function always reaches the function short-name index, and the
      probably-nothing index when so marked; its qualified name reaches the full-name
      index whenever present, whether or not the function is named or top-level. */
  lemma FunctionNameIndexing(f: FunctionStub)
    ensures Keys(FunctionOccurrences(f), FunctionShortName) == ToSeq(f.name)
    ensures Keys(FunctionOccurrences(f), ProbablyNothingFunctionShortName)
         == if f.isProbablyNothingType then ToSeq(f.name) else []
    ensures Keys(FunctionOccurrences(f), TopLevelFunctionsFqName) == ToSeq(StringOf(f.fqName))
  {
    FunctionKeys(f, FunctionShortName);
    FunctionKeys(f, ProbablyNothingFunctionShortName);
    FunctionKeys(f, TopLevelFunctionsFqName);
  }

  /** A named top-level function reaches the extension or the non-extension top-level
      index according to its receiver; no other function reaches either. */
  lemma FunctionPlacement(f: FunctionStub)
    ensures Keys(FunctionOccurrences(f), TopLevelNonExtensionFunctionShortName)
         == if f.isTopLevel && !f.isExtension then ToSeq(f.name) else []
    ensures Keys(FunctionOccurrences(f), TopLevelExtensionFunctionShortName)
         == if f.isTopLevel && f.isExtension then ToSeq(f.name) else []
  {
    FunctionKeys(f, TopLevelNonExtensionFunctionShortName);
    FunctionKeys(f, TopLevelExtensionFunctionShortName);
  }

  lemma FunctionOtherIndexes(f: FunctionStub, i: IndexKey)
    requires i !in {FunctionShortName, TopLevelNonExtensionFunctionShortName,
                    TopLevelExtensionFunctionShortName, ProbablyNothingFunctionShortName,
                    TopLevelFunctionsFqName}
    ensures Keys(FunctionOccurrences(f), i) == []
  {
    FunctionKeys(f, i);
  }

  lemma FunctionIndexing(f: FunctionStub)
    ensures Keys(FunctionOccurrences(f), FunctionShortName) == ToSeq(f.name)
    ensures Keys(FunctionOccurrences(f), TopLevelNonExtensionFunctionShortName)
         == if f.isTopLevel && !f.isExtension then ToSeq(f.name) else []
    ensures Keys(FunctionOccurrences(f), TopLevelExtensionFunctionShortName)
         == if f.isTopLevel && f.isExtension then ToSeq(f.name) else []
    ensures Keys(FunctionOccurrences(f), ProbablyNothingFunctionShortName)
         == if f.isProbablyNothingType then ToSeq(f.name) else []
    ensures Keys(FunctionOccurrences(f), TopLevelFunctionsFqName) == ToSeq(StringOf(f.fqName))
    ensures forall i | i !in {FunctionShortName, TopLevelNonExtensionFunctionShortName,
                              TopLevelExtensionFunctionShortName, ProbablyNothingFunctionShortName,
                              TopLevelFunctionsFqName}
              :: Keys(FunctionOccurrences(f), i) == []
  {
    FunctionNameIndexing(f);
    FunctionPlacement(f);
    forall i | i !in {FunctionShortName, TopLevelNonExtensionFunctionShortName,
                      TopLevelExtensionFunctionShortName, ProbablyNothingFunctionShortName,
                      TopLevelFunctionsFqName}
      ensures Keys(FunctionOccurrences(f), i) == []
    {
      FunctionOtherIndexes(f, i);
    }
  }

  /** A named top-level function lands in exactly one of the two top-level short-name
      indexes, chosen by whether it is an extension. */
  lemma FunctionPlacementExclusive(f: FunctionStub)
    requires f.name.Some? && f.isTopLevel
    ensures |Keys(FunctionOccurrences(f), TopLevelNonExtensionFunctionShortName)|
          + |Keys(FunctionOccurrences(f), TopLevelExtensionFunctionShortName)| == 1
    ensures Keys(FunctionOccurrences(f), TopLevelExtensionFunctionShortName) != [] <==> f.isExtension
  {
    FunctionPlacement(f);
  }

  // -------------------------------------------------------------- properties

  lemma PropertyKeys(p: PropertyStub, i: IndexKey)
    ensures Keys(PropertyOccurrences(p), i)
         == (if i == (if p.hasReceiverTypeRef then TopLevelExtensionPropertyShortName
                      else TopLevelNonExtensionPropertyShortName) && p.isTopLevel then ToSeq(p.name) else [])
          + (if i == PropertyShortName then ToSeq(p.name) else [])
          + (if i == ProbablyNothingPropertyShortName && p.isProbablyNothingType then ToSeq(p.name) else [])
          + (if i == TopLevelPropertiesFqName && p.isTopLevel then ToSeq(StringOf(p.fqName)) else [])
  {
    var placement := if p.hasReceiverTypeRef then TopLevelExtensionPropertyShortName
                     else TopLevelNonExtensionPropertyShortName;
    var topName := if p.isTopLevel then p.name else None;
    var nothingName := if p.isProbablyNothingType then p.name else None;
    var topFqName := if p.isTopLevel then p.fqName else None;
    KeysOfParts(EmitName(placement, topName), EmitName(PropertyShortName, p.name),
                EmitName(ProbablyNothingPropertyShortName, nothingName),
                EmitFqName(TopLevelPropertiesFqName, topFqName), i);
    EmitNameKeys(placement, topName, i);
    EmitNameKeys(PropertyShortName, p.name, i);
    EmitNameKeys(ProbablyNothingPropertyShortName, nothingName, i);
    EmitFqNameKeys(TopLevelPropertiesFqName, topFqName, i);
  }

  /** A named property always reaches the property short-name index, and the
      probably-nothing index when so marked; its qualified name reaches the full-name
      index only when the property is top-level. */
  lemma PropertyNameIndexing(p: PropertyStub)
    ensures Keys(PropertyOccurrences(p), PropertyShortName) == ToSeq(p.name)
    ensures Keys(PropertyOccurrences(p), ProbablyNothingPropertyShortName)
         == if p.isProbablyNothingType then ToSeq(p.name) else []
    ensures Keys(PropertyOccurrences(p), TopLevelPropertiesFqName)
         == if p.isTopLevel then ToSeq(StringOf(p.fqName)) else []
  {
    PropertyKeys(p, PropertyShortName);
    PropertyKeys(p, ProbablyNothingPropertyShortName);
    PropertyKeys(p, TopLevelPropertiesFqName);
  }

  /** A named top-level property reaches the extension or the non-extension top-level
      index according to its receiver type; no other property reaches either. */
  lemma PropertyPlacement(p: PropertyStub)
    ensures Keys(PropertyOccurrences(p), TopLevelNonExtensionPropertyShortName)
         == if p.isTopLevel && !p.hasReceiverTypeRef then ToSeq(p.name) else []
    ensures Keys(PropertyOccurrences(p), TopLevelExtensionPropertyShortName)
         == if p.isTopLevel && p.hasReceiverTypeRef then ToSeq(p.name) else []
  {
    PropertyKeys(p, TopLevelNonExtensionPropertyShortName);
    PropertyKeys(p, TopLevelExtensionPropertyShortName);
  }

  lemma PropertyOtherIndexes(p: PropertyStub, i: IndexKey)
    requires i !in {PropertyShortName, TopLevelNonExtensionPropertyShortName,
                    TopLevelExtensionPropertyShortName, ProbablyNothingPropertyShortName,
                    TopLevelPropertiesFqName}
    ensures Keys(PropertyOccurrences(p), i) == []
  {
    PropertyKeys(p, i);
  }

  lemma PropertyIndexing(p: PropertyStub)
    ensures Keys(PropertyOccurrences(p), PropertyShortName) == ToSeq(p.name)
    ensures Keys(PropertyOccurrences(p), TopLevelNonExtensionPropertyShortName)
         == if p.isTopLevel && !p.hasReceiverTypeRef then ToSeq(p.name) else []
    ensures Keys(PropertyOccurrences(p), TopLevelExtensionPropertyShortName)
         == if p.isTopLevel && p.hasReceiverTypeRef then ToSeq(p.name) else []
    ensures Keys(PropertyOccurrences(p), ProbablyNothingPropertyShortName)
         == if p.isProbablyNothingType then ToSeq(p.name) else []
    ensures Keys(PropertyOccurrences(p), TopLevelPropertiesFqName)
         == if p.isTopLevel then ToSeq(StringOf(p.fqName)) else []
    ensures forall i | i !in {PropertyShortName, TopLevelNonExtensionPropertyShortName,
                              TopLevelExtensionPropertyShortName, ProbablyNothingPropertyShortName,
                              TopLevelPropertiesFqName}
              :: Keys(PropertyOccurrences(p), i) == []
  {
    PropertyNameIndexing(p);
    PropertyPlacement(p);
    forall i | i !in {PropertyShortName, TopLevelNonExtensionPropertyShortName,
                      TopLevelExtensionPropertyShortName, ProbablyNothingPropertyShortName,
                      TopLevelPropertiesFqName}
      ensures Keys(PropertyOccurrences(p), i) == []
    {
      PropertyOtherIndexes(p, i);
    }
  }

  /** A named top-level property lands in exactly one of the two top-level short-name
      indexes, chosen by whether it has a receiver type. */
  lemma PropertyPlacementExclusive(p: PropertyStub)
    requires p.name.Some? && p.isTopLevel
    ensures |Keys(PropertyOccurrences(p), TopLevelNonExtensionPropertyShortName)|
          + |Keys(PropertyOccurrences(p), TopLevelExtensionPropertyShortName)| == 1
    ensures Keys(PropertyOccurrences(p), TopLevelExtensionPropertyShortName) != [] <==> p.hasReceiverTypeRef
  {
    PropertyPlacement(p);
  }

  // ------------------------------------------------------------- annotations

  lemma AnnotationIndexing(a: AnnotationEntryStub, i: IndexKey)
    ensures Keys(AnnotationOccurrences(a), i) == if i == Annotations then [a.shortName] else []
  {
    KeysSingle(AnnotationOccurrences(a)[0], i);
  }

  // --------------------------------------------------------------- examples

  /** A top-level class with two written supertypes, directly in package p.q. */
  lemma TopLevelClassExample()
    ensures ClassOccurrences(ClassStub(Some("A"), Some(FqName(["p", "q", "A"])), ["B", "C"],
                                       File(FileStub(FqName(["p", "q"])))))
         == [Occurrence(ClassShortName, "A"), Occurrence(FullClassName, "p.q.A"),
             Occurrence(SuperClass, "B"), Occurrence(SuperClass, "C"),
             Occurrence(ClassByPackage, "p.q")]
  {
    assert AsString(FqName(["p", "q", "A"])) == "p.q.A" by {
      assert ["p", "q", "A"][1..] == ["q", "A"];
      assert ["q", "A"][1..] == ["A"];
    }
    assert AsString(FqName(["p", "q"])) == "p.q" by {
      assert ["p", "q"][1..] == ["q"];
    }
    assert SuperNameOccurrences(["B", "C"]) == [Occurrence(SuperClass, "B"), Occurrence(SuperClass, "C")] by {
      assert ["B", "C"][..1] == ["B"];
      assert ["B"][..0] == [];
    }
  }

  /** A top-level extension function: the extension index, never the non-extension one. */
  lemma ExtensionFunctionExample(parent: Stub)
    ensures FunctionOccurrences(FunctionStub(Some("foo"), None, true, true, false, parent))
         == [Occurrence(TopLevelExtensionFunctionShortName, "foo"), Occurrence(FunctionShortName, "foo")]
  {
  }

  /** A class object three links below class p.Foo is indexed as p.Foo.object. */
  lemma ClassObjectExample(declared: Option<string>)
    ensures
      var owner := Class(ClassStub(Some("Foo"), Some(FqName(["p", "Foo"])), [], File(FileStub(FqName(["p"])))));
      var o := ObjectStub(declared, None, [], false, true, Other(Other(owner)));
      ObjectOccurrences(o)
      == Ok([Occurrence(ClassShortName, ClassObjectMarker), Occurrence(FullClassName, "p.Foo.object")])
  {
    var foo := FqName(["p", "Foo"]);
    assert AsString(foo) == "p.Foo" by {
      assert ["p", "Foo"][1..] == ["Foo"];
    }
    assert foo != Root;
    assert "p.Foo" + "." + ClassObjectMarker == "p.Foo.object";
    var owner := Class(ClassStub(Some("Foo"), Some(foo), [], File(FileStub(FqName(["p"])))));
    var o := ObjectStub(declared, None, [], false, true, Other(Other(owner)));
    assert ClassObjectOwner(o) == Ok(owner);
    assert EffectiveNames(o) == Ok((Some(ClassObjectMarker), Some(Child(foo, ClassObjectMarker))));
    assert PackageOccurrences(Object(o)) == [];
    assert ObjectNameOccurrences(o, Some(ClassObjectMarker)) == [Occurrence(ClassShortName, ClassObjectMarker)];
    assert EmitFqName(FullClassName, Some(Child(foo, ClassObjectMarker)))
        == [Occurrence(FullClassName, "p.Foo.object")];
    assert SuperNameOccurrences([]) == [];
    assert ObjectOccurrences(o) == Ok(ObjectOccurrencesNamed(o, Some(ClassObjectMarker), Some(Child(foo, ClassObjectMarker))));
    assert ObjectOccurrencesNamed(o, Some(ClassObjectMarker), Some(Child(foo, ClassObjectMarker)))
        == [Occurrence(ClassShortName, ClassObjectMarker), Occurrence(FullClassName, "p.Foo.object")];
  }

  /** A class object whose parent chain is too short cannot be indexed. */
  lemma ClassObjectBrokenChainExample(name: Option<string>)
    ensures
      var file := File(FileStub(FqName(["p"])));
      ObjectOccurrences(ObjectStub(name, None, [], true, true, Other(file))) == Err(BrokenParentChain)
  {
  }
}
