/**
 * The fixed registry of indexes, the occurrences reported into them, and the sink
 * that receives the occurrences for the file being indexed.
 */
module Indexes {

  /** One identifier per index of the registry. */
  datatype IndexKey =
    | ExactPackages
    | ClassShortName
    | FullClassName
    | ClassByPackage
    | TopLevelObjectShortName
    | SuperClass
    | FunctionShortName
    | TopLevelNonExtensionFunctionShortName
    | TopLevelExtensionFunctionShortName
    | ProbablyNothingFunctionShortName
    | PropertyShortName
    | TopLevelNonExtensionPropertyShortName
    | TopLevelExtensionPropertyShortName
    | ProbablyNothingPropertyShortName
    | TopLevelPropertiesFqName
    | TopLevelFunctionsFqName
    | Annotations

  /** A key reported into one index for the current file. */
  datatype Occurrence = Occurrence(index: IndexKey, key: string)

  /** The receiving end: every reported occurrence is appended, in order. */
  class IndexSink {
    var occurrences: seq<Occurrence>

    constructor ()
      ensures occurrences == []
    {
      occurrences := [];
    }

    method Occur(index: IndexKey, key: string)
      modifies this
      ensures occurrences == old(occurrences) + [Occurrence(index, key)]
    {
      occurrences := occurrences + [Occurrence(index, key)];
    }
  }

  /** Reporting several occurrences in a row appends them as one block. */
  lemma AppendAssoc(s: seq<Occurrence>, a: seq<Occurrence>, b: seq<Occurrence>)
    ensures s + (a + b) == s + a + b
  {
  }

  /** The keys reported into `index`, in the order they were reported. */
  function Keys(occurrences: seq<Occurrence>, index: IndexKey): seq<string>
  {
    if occurrences == [] then []
    else
      var last := occurrences[|occurrences| - 1];
      Keys(occurrences[..|occurrences| - 1], index) + (if last.index == index then [last.key] else [])
  }

  lemma {:induction false} KeysAppend(a: seq<Occurrence>, b: seq<Occurrence>, index: IndexKey)
    ensures Keys(a + b, index) == Keys(a, index) + Keys(b, index)
    decreases |b|
  {
    if b == [] {
      assert a + b == a;
    } else {
      var n := |b|;
      assert (a + b)[..|a + b| - 1] == a + b[..n - 1];
      KeysAppend(a, b[..n - 1], index);
    }
  }

  lemma KeysSingle(o: Occurrence, index: IndexKey)
    ensures Keys([o], index) == if o.index == index then [o.key] else []
  {
    assert [o][..0] == [];
  }
}
