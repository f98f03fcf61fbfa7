/**
 Sequences whose elements carry an id. A Python dict keyed by its values' own id,
 and a list searched for an id, both behave like this: replacing keeps the
 position, anything new goes to the end.
 */
module Keyed {

  /** Position of the first element with id `k`, or |s|. */
  function Find<T>(s: seq<T>, id: T -> string, k: string): (i: nat)
    ensures i <= |s|
    ensures i < |s| ==> id(s[i]) == k
    ensures forall j :: 0 <= j < i ==> id(s[j]) != k
  {
    if s == [] then 0 else if id(s[0]) == k then 0 else 1 + Find(s[1..], id, k)
  }

  function PutById<T>(s: seq<T>, id: T -> string, x: T): seq<T> {
    var i := Find(s, id, id(x));
    if i < |s| then s[i := x] else s + [x]
  }

  function PutAll<T>(s: seq<T>, id: T -> string, xs: seq<T>): seq<T> {
    if xs == [] then s else PutById(PutAll(s, id, xs[..|xs| - 1]), id, xs[|xs| - 1])
  }

  function Filter<T>(s: seq<T>, keep: T -> bool): (r: seq<T>)
    ensures forall x | x in r :: x in s && keep(x)
    ensures forall x | x in s && keep(x) :: x in r
  {
    if s == [] then [] else
      Filter(s[..|s| - 1], keep) + (if keep(s[|s| - 1]) then [s[|s| - 1]] else [])
  }

  function Map<T, U>(s: seq<T>, f: T -> U): (r: seq<U>)
    ensures |r| == |s| && forall i :: 0 <= i < |s| ==> r[i] == f(s[i])
  {
    seq(|s|, i requires 0 <= i < |s| => f(s[i]))
  }

  ghost predicate Distinct<T>(s: seq<T>, id: T -> string) {
    forall i, j :: 0 <= i < j < |s| ==> id(s[i]) != id(s[j])
  }

  /** The numbers below k a predicate holds of. */
  function Among(k: nat, p: nat -> bool): set<nat> { set i: nat | i < k && p(i) }

  lemma AmongMore(k: nat, p: nat -> bool)
    ensures |Among(k + 1, p)| == |Among(k, p)| + (if p(k) then 1 else 0)
  {
    assert Among(k + 1, p) == if p(k) then Among(k, p) + {k} else Among(k, p);
  }

  /** Find is determined by being the first match. */
  lemma FindUnique<T>(s: seq<T>, id: T -> string, k: string, i: nat)
    requires i <= |s|
    requires i < |s| ==> id(s[i]) == k
    requires forall j :: 0 <= j < i ==> id(s[j]) != k
    ensures Find(s, id, k) == i
  {
  }

  lemma FindAppend<T>(s: seq<T>, id: T -> string, k: string, x: T)
    ensures Find(s + [x], id, k) ==
            if Find(s, id, k) < |s| then Find(s, id, k)
            else if id(x) == k then |s| else |s| + 1
  {
    var f := Find(s, id, k);
    FindUnique(s + [x], id, k, if f < |s| then f else if id(x) == k then |s| else |s| + 1);
  }

  /** Replacing an element by one with the same id moves nothing. */
  lemma PutByIdKeepsIds<T>(s: seq<T>, id: T -> string, x: T, k: string)
    ensures Find(PutById(s, id, x), id, k) ==
            if Find(s, id, k) < |s| || id(x) != k then
              if Find(s, id, k) < |s| then Find(s, id, k) else |PutById(s, id, x)|
            else |s|
  {
    var i := Find(s, id, id(x));
    if i < |s| {
      FindUnique(s[i := x], id, k, Find(s, id, k));
    } else {
      FindAppend(s, id, k, x);
    }
  }

  lemma PutByIdDistinct<T>(s: seq<T>, id: T -> string, x: T)
    requires Distinct(s, id)
    ensures Distinct(PutById(s, id, x), id)
  {
  }

  lemma {:induction false} PutAllDistinct<T>(s: seq<T>, id: T -> string, xs: seq<T>)
    requires Distinct(s, id)
    ensures Distinct(PutAll(s, id, xs), id)
  {
    if xs != [] {
      PutAllDistinct(s, id, xs[..|xs| - 1]);
      PutByIdDistinct(PutAll(s, id, xs[..|xs| - 1]), id, xs[|xs| - 1]);
    }
  }

  /** Into an empty store, putting a list with distinct ids rebuilds that list. */
  lemma {:induction false} PutAllFromEmpty<T>(id: T -> string, xs: seq<T>)
    requires Distinct(xs, id)
    ensures PutAll([], id, xs) == xs
  {
    if xs != [] {
      var n := |xs| - 1;
      PutAllFromEmpty(id, xs[..n]);
      var i := Find(xs[..n], id, id(xs[n]));
      assert xs[..n] + [xs[n]] == xs;
    }
  }

  /** Putting commutes with a change of representation that keeps ids. */
  lemma PutByIdMap<T, U>(s: seq<T>, idT: T -> string, f: T -> U, idU: U -> string, x: T)
    requires forall t :: idU(f(t)) == idT(t)
    ensures Map(PutById(s, idT, x), f) == PutById(Map(s, f), idU, f(x))
  {
    FindUnique(Map(s, f), idU, idT(x), Find(s, idT, idT(x)));
  }

  lemma {:induction false} PutAllMap<T, U>(s: seq<T>, idT: T -> string, f: T -> U, idU: U -> string, xs: seq<T>)
    requires forall t :: idU(f(t)) == idT(t)
    ensures Map(PutAll(s, idT, xs), f) == PutAll(Map(s, f), idU, Map(xs, f))
  {
    if xs != [] {
      var n := |xs| - 1;
      PutAllMap(s, idT, f, idU, xs[..n]);
      PutByIdMap(PutAll(s, idT, xs[..n]), idT, f, idU, xs[n]);
      assert Map(xs, f)[..n] == Map(xs[..n], f);
    }
  }

  lemma {:induction false} FilterMap<T, U>(s: seq<T>, f: T -> U, keepT: T -> bool, keepU: U -> bool)
    requires forall t :: keepU(f(t)) == keepT(t)
    ensures Map(Filter(s, keepT), f) == Filter(Map(s, f), keepU)
  {
    if s != [] {
      var n := |s| - 1;
      FilterMap(s[..n], f, keepT, keepU);
      assert Map(s, f)[..n] == Map(s[..n], f);
    }
  }

  lemma FilterSnoc<T>(s: seq<T>, x: T, keep: T -> bool)
    ensures Filter(s + [x], keep) == Filter(s, keep) + (if keep(x) then [x] else [])
  {
    assert (s + [x])[..|s|] == s;
  }
}
