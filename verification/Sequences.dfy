/** Facts about sequences that several modules use. */
module Sequences {

  predicate NoDuplicates<T(==)>(s: seq<T>) {
    forall i, j :: 0 <= i < j < |s| ==> s[i] != s[j]
  }

  lemma Regroup<T>(a: seq<T>, b: seq<T>, c: seq<T>)
    ensures a + (b + c) == (a + b) + c
  {
  }

  lemma NothingBefore<T>(s: seq<T>)
    ensures [] + s == s
  {
  }

  predicate Ascending(places: seq<nat>) {
    forall a, b :: 0 <= a < b < |places| ==> places[a] < places[b]
  }

  predicate Within<T>(s: seq<T>, places: seq<nat>) {
    forall a :: 0 <= a < |places| ==> places[a] < |s|
  }

  /** The elements at the given places. */
  function At<T>(s: seq<T>, places: seq<nat>): (t: seq<T>)
    requires Within(s, places)
    ensures |t| == |places| && forall a :: 0 <= a < |t| ==> t[a] == s[places[a]]
  {
    seq(|places|, a requires 0 <= a < |places| => s[places[a]])
  }

  /** Adding the place of one more element that is wanted. */
  lemma AtSnoc<T>(s: seq<T>, last: T, places: seq<nat>)
    requires Ascending(places) && Within(s, places)
    ensures Ascending(places + [|s|]) && Within(s + [last], places + [|s|]) && Within(s + [last], places)
    ensures At(s + [last], places) == At(s, places)
    ensures At(s + [last], places + [|s|]) == At(s, places) + [last]
  {
  }

  lemma PlaceSnoc(places: seq<nat>, n: nat)
    requires Ascending(places) && forall a :: 0 <= a < |places| ==> places[a] < n
    ensures Ascending(places + [n]) && forall i: nat :: i in places + [n] <==> i in places || i == n
  {
    assert (places + [n])[|places|] == n;
  }
}
