/**
 * The insertion-ordered symbol caches (`IndexSet<String>`) are modelled as
 * sequences without repetitions: the index of a key is its position.
 */
module IndexSets {
  import opened Wrappers

  predicate NoDup<T(==)>(s: seq<T>) {
    forall i, j :: 0 <= i < j < |s| ==> s[i] != s[j]
  }

  /**
   * The position of the first occurrence of `x` in `s`, as `get_index_of` on
   * an index set and `iter().position` on a vector return it.
   */
  function IndexOf<T(==)>(s: seq<T>, x: T): (r: Option<nat>)
    ensures r.Some? ==> r.value < |s| && s[r.value] == x && x !in s[..r.value]
    ensures r.None? <==> x !in s
  {
    if s == [] then None
    else if s[0] == x then Some(0)
    else
      match IndexOf(s[1..], x)
      case None => None
      case Some(i) =>
        assert s[1..][..i] == s[1..i + 1];
        Some(i + 1)
  }

  /** In a sequence without repetitions every element's index is its position. */
  lemma {:induction false} IndexOfNoDup<T>(s: seq<T>, i: nat)
    requires NoDup(s) && i < |s|
    ensures IndexOf(s, s[i]) == Some(i)
  {
    var r := IndexOf(s, s[i]);
    assert r.Some? && s[r.value] == s[i];
  }
}
