/** Metadata tags (`ITag`) as the metadata reader hands them over, and the
    two LINQ lookups the camera files run over them. */
module Exif {
  import opened Wrappers

  /** A metadata tag: numeric type, metadata directory and text value. */
  datatype Tag = Tag(typ: int, directory: string, value: string)

  /** The position of the first tag satisfying `p`, or `|tags|` if none does. */
  function FirstIndex(tags: seq<Tag>, p: Tag -> bool): (r: nat)
    ensures r <= |tags|
    ensures forall j :: 0 <= j < r ==> !p(tags[j])
    ensures r < |tags| ==> p(tags[r])
  {
    if tags == [] then 0
    else if p(tags[0]) then 0
    else 1 + FirstIndex(tags[1..], p)
  }

  /** `Enumerable.FirstOrDefault(predicate)`: the first matching tag, or none. */
  function FirstOrDefault(tags: seq<Tag>, p: Tag -> bool): (r: Option<Tag>)
    ensures r.None? <==> forall j :: 0 <= j < |tags| ==> !p(tags[j])
    ensures r.Some? ==> p(r.value) && r.value == tags[FirstIndex(tags, p)]
  {
    var i := FirstIndex(tags, p);
    if i < |tags| then Some(tags[i]) else None
  }

  /** `Enumerable.First(predicate)`: the first matching tag; with no match it
      throws `InvalidOperationException`. */
  function First(tags: seq<Tag>, p: Tag -> bool): (r: Outcome<Tag>)
    ensures r.Throws? <==> forall j :: 0 <= j < |tags| ==> !p(tags[j])
    ensures r.Throws? ==> r.exn.kind == InvalidOperationException
    ensures r.Ok? ==> p(r.value) && r.value == tags[FirstIndex(tags, p)]
  {
    match FirstOrDefault(tags, p)
    case Some(t) => Ok(t)
    case None => Raise(InvalidOperationException, "Sequence contains no matching element")
  }

  /** The first match is the same whatever follows it. */
  lemma {:induction false} FirstIndexIgnoresRest(tags: seq<Tag>, rest: seq<Tag>, p: Tag -> bool)
    requires FirstIndex(tags, p) < |tags|
    ensures FirstIndex(tags + rest, p) == FirstIndex(tags, p)
    decreases |tags|
  {
    if !p(tags[0]) {
      assert (tags + rest)[1..] == tags[1..] + rest;
      FirstIndexIgnoresRest(tags[1..], rest, p);
    }
  }

  /** A leading tag that does not match changes nothing. */
  lemma FirstSkipsNonMatching(t: Tag, tags: seq<Tag>, p: Tag -> bool)
    requires !p(t)
    ensures First([t] + tags, p) == First(tags, p)
  {
    assert ([t] + tags)[1..] == tags;
    assert forall j :: 0 <= j < |tags| ==> ([t] + tags)[j + 1] == tags[j];
  }
}
