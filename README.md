# Stub index extractor

This project models the extractor that feeds the Kotlin IDE plugin's stub indexes
(`StubIndexServiceImpl`). The extractor receives one declaration stub at a time: a
file, class, object, function, property or annotation entry. A stub is a node of the
syntactic tree built from a source file without resolution. For each stub the extractor
reports zero or more occurrences, each an `(index, key)` pair, to an index sink.

The model has these modules:

- `Wrappers`: `Option`, `Result` and `Outcome`.
- `FqNames`: a qualified name as a sequence of non-empty identifier segments. `Child`
  appends a segment and `AsString` joins the segments with `.`, so the root package's
  string is `""`, and no other name renders that way.
- `Stubs`: the stub tree as a datatype. Each stub kind keeps its optional name, its
  optional qualified name, its flags and its parent link. `Other` stands for any node
  the extractor does not index, such as a class body.
- `Indexes`: one constructor per index, the `Occurrence` pair, and the sink. The sink
  is a class whose `occurrences` sequence grows by one entry per reported occurrence.
  `Keys(occs, i)` lists, in order, the keys reported to index `i`.
- `IndexSpec`: the occurrence list each stub kind produces, as functions of the stub.
  Also the two pure helpers of the source: the three-hop owner lookup for class objects
  and the direct-file-parent test.
- `StubIndexServiceImpl`: the extractor itself. Each operation reports to the sink step
  by step, as the source does. Each is proved to append exactly the list `IndexSpec`
  gives and to change nothing else.
- `IndexProperties`: what those lists mean, index by index. These lemmas give which
  keys each index receives, in order, and show that every other index receives nothing.
  A few worked examples follow.

A class object whose parent chain is malformed stops the source with an assertion
failure, a null dereference or a failed cast. Here it is an error result, and nothing
is reported: `IndexObject` returns `Fail(BrokenParentChain)` or
`Fail(OwnerNotDeclaration)`.

The behaviour follows the code at these points:

- The file's package is always reported, including the root package's empty string.
  Keys can therefore be empty.
- A class object whose owner has no qualified name keeps its own qualified name. It is
  not treated as absent.
- A class object that is marked top-level also goes to the top-level object index.
- For a named top-level function or property, the extension or non-extension
  occurrence comes before the short-name occurrence.

## Model

| member | source | states |
|---|---|---|
| StubIndexServiceImpl.IndexFile | idea/idea-analysis/src/org/jetbrains/jet/plugin/stubindex/StubIndexServiceImpl.java:31-35 | appends exactly one occurrence: the exact-packages index keyed by the package's dotted string |
| StubIndexServiceImpl.IndexClass | idea/idea-analysis/src/org/jetbrains/jet/plugin/stubindex/StubIndexServiceImpl.java:38-51 | appends exactly `ClassOccurrences`: short name if present, full name if present, the super names, then the package if the parent is a file |
| StubIndexServiceImpl.IndexObject | idea/idea-analysis/src/org/jetbrains/jet/plugin/stubindex/StubIndexServiceImpl.java:54-85 | succeeds exactly when `ObjectOccurrences` is defined, and then appends exactly that list; on a malformed class-object chain it fails with the same defect and appends nothing |
| StubIndexServiceImpl.IndexObjectNamed | idea/idea-analysis/src/org/jetbrains/jet/plugin/stubindex/StubIndexServiceImpl.java:71-85 | once the effective names are fixed, appends exactly `ObjectOccurrencesNamed` |
| StubIndexServiceImpl.IndexSuperNames | idea/idea-analysis/src/org/jetbrains/jet/plugin/stubindex/StubIndexServiceImpl.java:87-91 | the loop appends one supertype occurrence per written super name, in order, as its invariant states |
| StubIndexServiceImpl.RecordClassOrObjectByPackage | idea/idea-analysis/src/org/jetbrains/jet/plugin/stubindex/StubIndexServiceImpl.java:93-100 | appends the class-by-package occurrence of the parent file's package when the direct parent is a file, and nothing otherwise |
| StubIndexServiceImpl.IndexFunction | idea/idea-analysis/src/org/jetbrains/jet/plugin/stubindex/StubIndexServiceImpl.java:103-126 | appends exactly `FunctionOccurrences`, whose per-index meaning `FunctionIndexing` gives |
| StubIndexServiceImpl.IndexProperty | idea/idea-analysis/src/org/jetbrains/jet/plugin/stubindex/StubIndexServiceImpl.java:129-155 | appends exactly `PropertyOccurrences`, whose per-index meaning `PropertyIndexing` gives |
| StubIndexServiceImpl.IndexAnnotation | idea/idea-analysis/src/org/jetbrains/jet/plugin/stubindex/StubIndexServiceImpl.java:157-160 | appends exactly one annotations-index occurrence keyed by the short name |
| IndexSpec.ClassObjectOwner | idea/idea-analysis/src/org/jetbrains/jet/plugin/stubindex/StubIndexServiceImpl.java:59-61 | the owner is found exactly when the stub three parent links up exists and is a class, object, function or property stub, and then it is that stub; a chain shorter than three links is the broken-chain defect, any other stub kind there is the not-a-declaration defect |
| FqNames.Child | idea/idea-analysis/src/org/jetbrains/jet/plugin/stubindex/StubIndexServiceImpl.java:67 | the string of a child name is the parent's string, a dot and the new segment; directly below the root it is the segment alone |
| FqNames.AsStringEmpty | idea/idea-analysis/src/org/jetbrains/jet/plugin/stubindex/StubIndexServiceImpl.java:32-34 | a qualified name renders as the empty string if and only if it is the root package, because segments are never empty |
| FqNames.AsStringRoot | idea/idea-analysis/src/org/jetbrains/jet/plugin/stubindex/StubIndexServiceImpl.java:32-34 | the root package's string is empty |
| IndexProperties.FileIndexing | idea/idea-analysis/src/org/jetbrains/jet/plugin/stubindex/StubIndexServiceImpl.java:31-35 | a file reaches only the exact-packages index, with its package string |
| IndexProperties.SuperNameKeys | idea/idea-analysis/src/org/jetbrains/jet/plugin/stubindex/StubIndexServiceImpl.java:87-91 | the supertype index receives exactly the super names, in order, so as many keys as names; no other index receives anything |
| IndexProperties.PackageKeys | idea/idea-analysis/src/org/jetbrains/jet/plugin/stubindex/StubIndexServiceImpl.java:93-100 | the class-by-package index receives the file's package if and only if the direct parent is a file; being top-level plays no part |
| IndexProperties.ClassKeys | idea/idea-analysis/src/org/jetbrains/jet/plugin/stubindex/StubIndexServiceImpl.java:38-51 | the keys any index receives from a class, as the sum of the four steps |
| IndexProperties.ClassIndexing | idea/idea-analysis/src/org/jetbrains/jet/plugin/stubindex/StubIndexServiceImpl.java:38-51 | a short-name key if and only if a name is present; a full-name key if and only if a qualified name is present; the super names; the package when the parent is a file; every other index empty |
| IndexProperties.ObjectNames | idea/idea-analysis/src/org/jetbrains/jet/plugin/stubindex/StubIndexServiceImpl.java:55-69 | a plain object keeps its names; a class object is named by the marker, and is placed below its owner's qualified name when there is one, else keeps its own; its names are defined if and only if the owner is found |
| IndexProperties.ObjectNameKeys | idea/idea-analysis/src/org/jetbrains/jet/plugin/stubindex/StubIndexServiceImpl.java:71-77 | the short-name keys of an object: the class short-name index always, the top-level object index only when top-level |
| IndexProperties.ObjectKeys | idea/idea-analysis/src/org/jetbrains/jet/plugin/stubindex/StubIndexServiceImpl.java:71-85 | the keys any index receives from an object with given effective names, step by step |
| IndexProperties.ObjectShortNameIndexing | idea/idea-analysis/src/org/jetbrains/jet/plugin/stubindex/StubIndexServiceImpl.java:71-77 | the class short-name index receives the effective name if present; the top-level object index receives it if and only if the object is also top-level |
| IndexProperties.ObjectRemainingIndexing | idea/idea-analysis/src/org/jetbrains/jet/plugin/stubindex/StubIndexServiceImpl.java:79-85 | the full-name key if and only if an effective qualified name is present; the super names; the package when the parent is a file |
| IndexProperties.ObjectOtherIndexes | idea/idea-analysis/src/org/jetbrains/jet/plugin/stubindex/StubIndexServiceImpl.java:54-85 | an object reaches no index beyond the class short-name, top-level object, full-name, supertype and class-by-package indexes |
| IndexProperties.ObjectIndexing | idea/idea-analysis/src/org/jetbrains/jet/plugin/stubindex/StubIndexServiceImpl.java:54-85 | indexing an object fails if and only if it is a class object whose owner lookup fails, with that defect; otherwise the per-index keys above, and nothing elsewhere |
| IndexProperties.FunctionKeys | idea/idea-analysis/src/org/jetbrains/jet/plugin/stubindex/StubIndexServiceImpl.java:103-126 | the keys any index receives from a function, as the sum of the four steps |
| IndexProperties.FunctionNameIndexing | idea/idea-analysis/src/org/jetbrains/jet/plugin/stubindex/StubIndexServiceImpl.java:115-125 | the short-name index receives the name if present; the probably-nothing index receives it if and only if so marked; the full-name index receives the qualified name whenever present, named or not, top-level or not |
| IndexProperties.FunctionPlacement | idea/idea-analysis/src/org/jetbrains/jet/plugin/stubindex/StubIndexServiceImpl.java:106-114 | the non-extension top-level index receives the name exactly for a top-level non-extension, the extension index exactly for a top-level extension |
| IndexProperties.FunctionOtherIndexes | idea/idea-analysis/src/org/jetbrains/jet/plugin/stubindex/StubIndexServiceImpl.java:103-126 | a function reaches no index beyond the five function indexes |
| IndexProperties.FunctionIndexing | idea/idea-analysis/src/org/jetbrains/jet/plugin/stubindex/StubIndexServiceImpl.java:103-126 | all of the above for one function: the keys of every index |
| IndexProperties.FunctionPlacementExclusive | idea/idea-analysis/src/org/jetbrains/jet/plugin/stubindex/StubIndexServiceImpl.java:106-114 | a named top-level function lands in exactly one of the two top-level short-name indexes, the extension one if and only if it is an extension |
| IndexProperties.PropertyKeys | idea/idea-analysis/src/org/jetbrains/jet/plugin/stubindex/StubIndexServiceImpl.java:129-155 | the keys any index receives from a property, as the sum of the four steps |
| IndexProperties.PropertyNameIndexing | idea/idea-analysis/src/org/jetbrains/jet/plugin/stubindex/StubIndexServiceImpl.java:142-154 | the short-name index receives the name if present; the probably-nothing index if and only if so marked; the full-name index receives the qualified name only when top-level |
| IndexProperties.PropertyPlacement | idea/idea-analysis/src/org/jetbrains/jet/plugin/stubindex/StubIndexServiceImpl.java:132-140 | the non-extension top-level index receives the name exactly for a top-level property without receiver type, the extension index exactly for one with it |
| IndexProperties.PropertyOtherIndexes | idea/idea-analysis/src/org/jetbrains/jet/plugin/stubindex/StubIndexServiceImpl.java:129-155 | a property reaches no index beyond the five property indexes |
| IndexProperties.PropertyIndexing | idea/idea-analysis/src/org/jetbrains/jet/plugin/stubindex/StubIndexServiceImpl.java:129-155 | all of the above for one property: the keys of every index |
| IndexProperties.PropertyPlacementExclusive | idea/idea-analysis/src/org/jetbrains/jet/plugin/stubindex/StubIndexServiceImpl.java:132-140 | a named top-level property lands in exactly one of the two top-level short-name indexes, the extension one if and only if it has a receiver type |
| IndexProperties.AnnotationIndexing | idea/idea-analysis/src/org/jetbrains/jet/plugin/stubindex/StubIndexServiceImpl.java:157-160 | an annotation entry reaches only the annotations index, with its short name |
| IndexProperties.TopLevelClassExample | idea/idea-analysis/src/org/jetbrains/jet/plugin/stubindex/StubIndexServiceImpl.java:38-51 | class `p.q.A : B, C` directly in a file yields A, p.q.A, B, C and package p.q, in that order |
| IndexProperties.ExtensionFunctionExample | idea/idea-analysis/src/org/jetbrains/jet/plugin/stubindex/StubIndexServiceImpl.java:103-126 | a top-level extension function `foo` yields the extension index then the short-name index, and nothing more |
| IndexProperties.ClassObjectExample | idea/idea-analysis/src/org/jetbrains/jet/plugin/stubindex/StubIndexServiceImpl.java:58-81 | a class object three links below class `p.Foo` is indexed under the marker and as `p.Foo.object`, whatever name it declares |
| IndexProperties.ClassObjectBrokenChainExample | idea/idea-analysis/src/org/jetbrains/jet/plugin/stubindex/StubIndexServiceImpl.java:58-61 | a class object only two links below a file cannot be indexed: broken-chain defect |

## Left out

- The index sink's implementation, index persistence and the per-index key singletons.
  Each index is one enum constant, and the sink is an append-only sequence.
- How stubs are built from source text, and the traversal that calls these operations
  on every stub of a file.
- Resolution of super-type names. They stay the strings as written.
- Qualified names beyond segment append and dot join. `Name.identifier` checks a
  segment for validity; that check is not modelled, because the marker is a valid
  identifier.
- `JvmAbi.CLASS_OBJECT_CLASS_NAME` is not part of this model. The marker is the
  constant `ClassObjectMarker`, and no proof depends on its value beyond the examples.
- Stub interfaces. A "stub with a qualified name" is taken to be a class, object,
  function or property stub.
- IndexObject: the source stops with an assertion error, a null dereference or a cast
  failure. The model does not tell these apart: the defect is only a broken chain
  (`BrokenParentChain`) or a stub three links up that is not a class, object, function
  or property (`OwnerNotDeclaration`).
- IndexObjectNamed is a split of IndexObject's reporting half into its own method. The
  source has one method.
