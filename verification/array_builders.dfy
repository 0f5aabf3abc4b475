/** The array helper that `withAdditionalDeserializers` uses to extend the
    list of additional deserializer providers. */
module ArrayBuilders {

  /** Returns a list one longer than `list` that holds every old element and
      `element`. Where the new element lands is the helper's choice, given here
      as `at` (clamped to the list's length); no caller depends on it. */
  function InsertInList<T(==)>(list: seq<T>, element: T, at: nat): (r: seq<T>)
    ensures |r| == |list| + 1
    ensures multiset(r) == multiset(list) + multiset{element}
    ensures element in r
    ensures forall x :: x in list ==> x in r
  {
    var i := if at <= |list| then at else |list|;
    assert list == list[..i] + list[i..];
    list[..i] + [element] + list[i..]
  }
}
