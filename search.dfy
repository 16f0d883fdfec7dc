/** First-match search over a sequence, as `Array.prototype.find` and `findIndex` do it. */
module Search {
  import opened Wrappers

  /** Position of the first element whose key is `k`, if any. */
  function FirstIndex<T, K(==)>(s: seq<T>, key: T -> K, k: K): (r: Option<nat>)
    ensures r.None? <==> forall j :: 0 <= j < |s| ==> key(s[j]) != k
    ensures r.Some? ==> r.value < |s| && key(s[r.value]) == k
                        && forall j :: 0 <= j < r.value ==> key(s[j]) != k
  {
    if s == [] then None
    else if key(s[0]) == k then Some(0)
    else
      match FirstIndex(s[1..], key, k)
      case Some(i) => Some(i + 1)
      case None => None
  }
}
