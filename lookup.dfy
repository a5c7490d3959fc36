/** The two lookups the routines share: dict.get (and os.getenv) with a
    default, and the first element that passes a test, as a for loop with an
    early return or next() over a generator finds it. */
module Lookup {
  import opened Wrappers

  function GetOr<K, V>(m: map<K, V>, key: K, default: V): (v: V)
    ensures key in m ==> v == m[key]
    ensures key !in m ==> v == default
  {
    if key in m then m[key] else default
  }

  /** The position of the first element that passes the test, if any. */
  function FirstWhere<T>(s: seq<T>, test: T -> bool): (r: Option<nat>)
    ensures r.None? <==> forall k :: 0 <= k < |s| ==> !test(s[k])
    ensures r.Some? ==> r.value < |s| && test(s[r.value]) && forall k :: 0 <= k < r.value ==> !test(s[k])
  {
    if s == [] then None
    else if test(s[0]) then Some(0)
    else match FirstWhere(s[1..], test)
         case None => None
         case Some(k) => Some(k + 1)
  }

  /** Only the outcome of the test matters, element by element. */
  lemma {:induction false} FirstWhereSameTests<T>(a: seq<T>, b: seq<T>, test: T -> bool)
    requires |a| == |b| && forall j :: 0 <= j < |a| ==> test(a[j]) == test(b[j])
    ensures FirstWhere(a, test) == FirstWhere(b, test)
  {
    if a != [] {
      FirstWhereSameTests(a[1..], b[1..], test);
    }
  }
}
