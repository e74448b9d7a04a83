/** The `Array.prototype.filter` idiom the order workflow is built from: keep, in order,
    the elements a predicate accepts. The predicate may be partial (the stock check's
    predicate is only defined for products the catalog returned), so it is a `-->` arrow
    and every element of the input must lie in its domain. */
module Filters {

  function Filter<T>(s: seq<T>, keep: T --> bool): (r: seq<T>)
    requires forall x :: x in s ==> keep.requires(x)
    ensures |r| <= |s|
    ensures forall x :: x in r ==> x in s && keep(x)
    ensures forall i :: 0 <= i < |s| && keep(s[i]) ==> s[i] in r
    ensures r == [] <==> forall i :: 0 <= i < |s| ==> !keep(s[i])
  {
    if s == [] then []
    else if keep(s[0]) then [s[0]] + Filter(s[1..], keep)
    else Filter(s[1..], keep)
  }

  /** `Filter(s, keep)[0]` is the first element of `s` that `keep` accepts. */
  lemma {:induction false} FilterHead<T>(s: seq<T>, keep: T --> bool, k: int)
    requires forall x :: x in s ==> keep.requires(x)
    requires 0 <= k < |s| && keep(s[k])
    requires forall j :: 0 <= j < k ==> !keep(s[j])
    ensures Filter(s, keep) != [] && Filter(s, keep)[0] == s[k]
  {
    if k > 0 {
      assert !keep(s[0]);
      FilterHead(s[1..], keep, k - 1);
    }
  }
}
