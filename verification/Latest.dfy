// Picking the resource with the latest generation from a list.
module Latest {
  import opened Wrappers
  import opened Json
  import opened Work
  import opened Generation
  import opened Sorting

  function Gen(x: Json): int {
    GetGenerationFromUnstructured(Some(x))
  }

  /** The comparator handed to the sort: higher generation first, then lower name. */
  predicate LatestFirst(x: Json, y: Json) {
    if Gen(x) != Gen(y) then Gen(x) > Gen(y) else Less(GetName(x), GetName(y))
  }

  lemma LatestFirstOrder()
    ensures StrictWeakOrder(LatestFirst)
  {
    hide GetName, GetGenerationFromUnstructured;
    LessOrder();
  }

  ghost predicate IsLatest(items: seq<Json>, x: Json) {
    x in items
    && forall y :: y in items ==>
      var older, newer := GetGenerationFromUnstructured(Some(y)), GetGenerationFromUnstructured(Some(x));
      older < newer || (older == newer && !Less(GetName(y), GetName(x)))
  }

  /** Sorts a copy, so the list itself is untouched; a nil list is a null array. */
  method GetLatestGenerationFromList(list: array?<Json>) returns (r: Option<Json>)
    ensures r.None? <==> list == null || list.Length == 0
    ensures r.Some? ==> IsLatest(list[..], r.value)
  {
    if list == null || list.Length == 0 {
      return None;
    }
    var items := new Json[list.Length](i requires 0 <= i < list.Length reads list => list[i]);
    assert items[..] == list[..];
    LatestFirstOrder();
    SortInPlace(items, LatestFirst);
    ghost var s := items[..];
    assert s[0] in multiset(s);
    assert s[0] in list[..];
    forall y | y in list[..]
      ensures !LatestFirst(y, s[0])
    {
      assert y in multiset(s);
      var k :| 0 <= k < |s| && s[k] == y;
    }
    return Some(items[0]);
  }

  /** Rearranging the list changes neither the generation nor the name of what is picked. */
  lemma LatestIgnoresOrder(xs: seq<Json>, ys: seq<Json>, x: Json, y: Json)
    requires multiset(xs) == multiset(ys)
    requires IsLatest(xs, x) && IsLatest(ys, y)
    ensures GetGenerationFromUnstructured(Some(x)) == GetGenerationFromUnstructured(Some(y)) && GetName(x) == GetName(y)
  {
    hide GetName, GetGenerationFromUnstructured;
    assert x in multiset(ys) && y in multiset(xs);
    LessTotal(GetName(x), GetName(y));
  }
}
