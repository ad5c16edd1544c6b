/**
 * Sequence and map helpers standing for the C++ library calls the core makes:
 * `std::find` followed by `erase` on a vector, and the ascending-key iteration
 * order of `std::map`.
 */
module Seqs {

  /** No element occurs twice (a vector of distinct pointers). */
  predicate Distinct<T(==)>(s: seq<T>) {
    forall i, j :: 0 <= i < j < |s| ==> s[i] != s[j]
  }

  /** Index of the first occurrence of `x`, or `|s|` when there is none
      (the position `std::find` returns). */
  function IndexOf<T(==)>(s: seq<T>, x: T): (k: nat)
    ensures k <= |s|
    ensures k < |s| ==> s[k] == x
    ensures forall i :: 0 <= i < k ==> s[i] != x
    ensures k == |s| <==> x !in s
  {
    if s == [] then 0
    else if s[0] == x then 0
    else 1 + IndexOf(s[1..], x)
  }

  /** `s` with its first occurrence of `x` erased; `s` itself when `x` is absent. */
  function RemoveFirst<T(==)>(s: seq<T>, x: T): seq<T> {
    var k := IndexOf(s, x);
    if k == |s| then s else s[..k] + s[k + 1..]
  }

  /** What `RemoveFirst` does to the length and to the other elements. */
  lemma RemoveFirstShape<T>(s: seq<T>, x: T)
    ensures x !in s ==> RemoveFirst(s, x) == s
    ensures x in s ==> |RemoveFirst(s, x)| == |s| - 1
    ensures x in s ==> multiset(RemoveFirst(s, x)) == multiset(s) - multiset{x}
    ensures forall y :: y in RemoveFirst(s, x) ==> y in s
  {
    var k := IndexOf(s, x);
    if k < |s| {
      assert s == s[..k] + [s[k]] + s[k + 1..];
    }
  }

  /** On a sequence without duplicates, erasing the element found at index `k`
      removes exactly index `k`. */
  lemma RemoveFirstAt<T>(s: seq<T>, k: nat)
    requires k < |s| && Distinct(s)
    ensures RemoveFirst(s, s[k]) == s[..k] + s[k + 1..]
  {
    assert IndexOf(s, s[k]) == k;
  }

  /** Erasing one index keeps the others distinct. */
  lemma DistinctRemove<T>(s: seq<T>, k: nat)
    requires k < |s| && Distinct(s)
    ensures Distinct(s[..k] + s[k + 1..])
  {
    var r := s[..k] + s[k + 1..];
    forall a, b | 0 <= a < b < |r|
      ensures r[a] != r[b]
    {
      var a' := if a < k then a else a + 1;
      var b' := if b < k then b else b + 1;
      assert r[a] == s[a'] && r[b] == s[b'];
    }
  }

  /** A non-empty sequence is its front followed by its last element. */
  lemma SplitLast<T>(s: seq<T>)
    requires s != []
    ensures s == s[..|s| - 1] + [s[|s| - 1]]
  {
  }

  /** A list grown twice at its end: `ps` to `before` to `qs`. */
  lemma GrownTwice<T>(ps: seq<T>, before: seq<T>, qs: seq<T>)
    requires |ps| <= |before| <= |qs|
    requires before[..|ps|] == ps && qs[..|before|] == before
    ensures qs[..|ps|] == ps
    ensures qs[|ps|..] == before[|ps|..] + qs[|before|..]
  {
    assert qs[..|ps|] == qs[..|before|][..|ps|];
    assert qs[|ps|..] == qs[|ps|..|before|] + qs[|before|..];
    assert qs[|ps|..|before|] == qs[..|before|][|ps|..];
  }

  /** `std::find`: the first index holding `x`, or `|s|` if there is none. */
  method Find<T(==)>(s: seq<T>, x: T) returns (k: nat)
    ensures k == IndexOf(s, x)
  {
    k := 0;
    while k < |s| && s[k] != x
      invariant k <= |s|
      invariant forall i :: 0 <= i < k ==> s[i] != x
    {
      k := k + 1;
    }
  }

  /** A non-empty set has an element. */
  lemma NonEmptyHasElement(s: set<int>)
    requires s != {}
    ensures exists x :: x in s
  {
    if forall x :: x !in s {
      assert false;
    }
  }

  /** A least element of a non-empty set of integers, picked by recursion. */
  ghost function LeastOf(s: set<int>): (m: int)
    requires s != {}
    ensures m in s
    ensures forall y :: y in s ==> m <= y
    decreases |s|
  {
    NonEmptyHasElement(s);
    var x :| x in s;
    if s == {x} then x
    else
      var rest := LeastOf(s - {x});
      assert forall y :: y in s ==> y == x || y in s - {x};
      if x < rest then x else rest
  }

  /** A non-empty set of integers has a least element. */
  lemma HasLeast(s: set<int>)
    requires s != {}
    ensures exists m :: m in s && forall y :: y in s ==> m <= y
  {
    var m := LeastOf(s);
    assert m in s && forall y :: y in s ==> m <= y;
  }

  /** The least element of a non-empty set of integers. */
  function MinOf(s: set<int>): (m: int)
    requires s != {}
    ensures m in s
    ensures forall y :: y in s ==> m <= y
  {
    HasLeast(s);
    var m :| m in s && forall y :: y in s ==> m <= y;
    m
  }

  /** The keys of a `std::map<int, ...>` in the order its iterators visit them:
      every key once, strictly ascending. */
  function SortedKeys(s: set<int>): (r: seq<int>)
    ensures forall i, j :: 0 <= i < j < |r| ==> r[i] < r[j]
    ensures forall x :: x in r <==> x in s
    ensures |r| == |s|
    decreases |s|
  {
    if s == {} then []
    else
      var m := MinOf(s);
      [m] + SortedKeys(s - {m})
  }

  /** Walks a map's keys in iteration order. The result is stated by the
      properties of `SortedKeys` alone, which keeps callers from unfolding
      its definition. */
  method KeysInOrder(s: set<int>) returns (r: seq<int>)
    ensures forall i, j :: 0 <= i < j < |r| ==> r[i] < r[j]
    ensures forall x :: x in r <==> x in s
    ensures forall k :: 0 <= k < |r| ==> r[k] in s
    ensures |r| == |s|
  {
    r := SortedKeys(s);
  }
}
