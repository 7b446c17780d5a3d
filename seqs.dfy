/** Lists, sets and the conversions between them that the collectors use. */
module Seqs {

  /** The elements of a list, as a set. */
  function Elems<T>(xs: seq<T>): set<T> {
    set x | x in xs
  }

  /** No element occurs twice. */
  predicate Distinct<T(==)>(xs: seq<T>) {
    forall i, j :: 0 <= i < j < |xs| ==> xs[i] != xs[j]
  }

  /** The concatenation of a list of lists. */
  function Flatten<T>(xss: seq<seq<T>>): (r: seq<T>)
  {
    if xss == [] then [] else xss[0] + Flatten(xss[1..])
  }

  /** The union of a list of sets. */
  function Union<T>(sets: seq<set<T>>): set<T>
    decreases |sets|
  {
    if sets == [] then {} else Union(sets[..|sets| - 1]) + sets[|sets| - 1]
  }

  lemma UnionSnoc<T>(sets: seq<set<T>>, s: set<T>)
    ensures Union(sets + [s]) == Union(sets) + s
  {
    assert (sets + [s])[..|sets|] == sets;
  }

  /** An element is in the union exactly when it is in one of the sets. */
  lemma {:induction false} UnionMembership<T>(sets: seq<set<T>>, x: T)
    ensures x in Union(sets) <==> exists i :: 0 <= i < |sets| && x in sets[i]
    decreases |sets|
  {
    if sets != [] {
      var n := |sets| - 1;
      var init := sets[..n];
      UnionMembership(init, x);
      if x in Union(init) {
        var i :| 0 <= i < |init| && x in init[i];
        assert sets[i] == init[i];
      }
      if exists i :: 0 <= i < |sets| && x in sets[i] {
        var i :| 0 <= i < |sets| && x in sets[i];
        if i < n {
          assert init[i] == sets[i];
        }
      }
    }
  }

  lemma AppendAssoc<T>(a: seq<T>, b: seq<T>, c: seq<T>)
    ensures a + (b + c) == (a + b) + c
  {
  }

  lemma ElemsSnoc<T>(xs: seq<T>, x: T)
    ensures Elems(xs + [x]) == Elems(xs) + {x}
  {
  }

  /** `list(s)` for a Python set `s`: every element once, in an order the
      set's hashing chooses (here: any order). */
  method ToList<T(==)>(s: set<T>) returns (xs: seq<T>)
    ensures Distinct(xs)
    ensures Elems(xs) == s
    ensures |xs| == |s|
  {
    xs := [];
    var rest := s;
    while rest != {}
      invariant Elems(xs) + rest == s
      invariant Elems(xs) !! rest
      invariant Distinct(xs)
      invariant |xs| + |rest| == |s|
      decreases |rest|
    {
      var x :| x in rest;
      ElemsSnoc(xs, x);
      xs := xs + [x];
      rest := rest - {x};
    }
  }
}
