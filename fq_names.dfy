/**
 * Qualified names: a sequence of identifier segments, extended one segment at a time
 * and rendered as the segments joined by dots. The root (default) package has no
 * segments and renders as the empty string.
 */
module FqNames {
  import opened Wrappers

  /** An identifier segment of a qualified name; never empty. */
  type Segment = s: string | s != "" witness "_"

  datatype FqName = FqName(segments: seq<Segment>)

  const Root: FqName := FqName([])

  /** The name one level below `f`, ending in the identifier `name`: it renders as
      the parent's string, a dot and the new segment, or as the segment alone directly
      below the root. */
  function Child(f: FqName, name: Segment): (r: FqName)
    ensures AsString(r) == if f == Root then name else AsString(f) + "." + name
  {
    JoinAppend(f.segments, name);
    FqName(f.segments + [name])
  }

  /** The segments joined by ".". */
  function Join(segments: seq<string>): string
  {
    if |segments| == 0 then ""
    else if |segments| == 1 then segments[0]
    else segments[0] + "." + Join(segments[1..])
  }

  /** The dotted string form of a qualified name. */
  function AsString(f: FqName): string
  {
    Join(f.segments)
  }

  /** Joining one more segment: the previous string, a dot and the new segment, except
      after no segments, where it is the segment alone. */
  lemma {:induction false} JoinAppend(segments: seq<string>, name: string)
    ensures Join(segments + [name]) == if segments == [] then name else Join(segments) + "." + name
    decreases |segments|
  {
    if |segments| == 0 {
      assert segments + [name] == [name];
    } else if |segments| == 1 {
      assert (segments + [name])[1..] == [name];
    } else {
      assert (segments + [name])[1..] == segments[1..] + [name];
      JoinAppend(segments[1..], name);
    }
  }

  /** The string form of a qualified name, when there is one. */
  function StringOf(fqName: Option<FqName>): (r: Option<string>)
    ensures r.Some? <==> fqName.Some?
    ensures fqName.Some? ==> r.value == AsString(fqName.value)
  {
    match fqName
    case None => None
    case Some(f) => Some(AsString(f))
  }

  /** Only the root renders as the empty string, since no segment is empty. */
  lemma AsStringEmpty(f: FqName)
    ensures AsString(f) == "" <==> f == Root
  {
  }

  lemma AsStringRoot()
    ensures AsString(Root) == ""
  {
  }
}
