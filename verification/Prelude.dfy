/**
 Small shared vocabulary: options, flattening and removal in sequences, distinctness, and the n smallest elements of
 a finite set, which stand for what Redis returns from a range query with a count. The set functions are ghost: the
 loops that list ids in order are in Redis, and are proved to return these sets. None of this is specific to the
 router or the workers.
 */
module Prelude {
  datatype Option<+T> = None | Some(value: T)

  function Flatten<T>(xss: seq<seq<T>>): (r: seq<T>)
  {
    if xss == [] then [] else xss[0] + Flatten(xss[1..])
  }

  lemma {:induction false} FlattenAppend<T>(xss: seq<seq<T>>, yss: seq<seq<T>>)
    ensures Flatten(xss + yss) == Flatten(xss) + Flatten(yss)
  {
    if xss == [] {
      assert xss + yss == yss;
    } else {
      assert (xss + yss)[1..] == xss[1..] + yss;
      FlattenAppend(xss[1..], yss);
    }
  }

  lemma FlattenSnoc<T>(xss: seq<seq<T>>, ys: seq<T>)
    ensures Flatten(xss + [ys]) == Flatten(xss) + ys
  {
    FlattenAppend(xss, [ys]);
    assert Flatten([ys]) == ys + Flatten([]) == ys;
  }

  ghost predicate Distinct<T>(s: seq<T>) {
    forall i, j :: 0 <= i < j < |s| ==> s[i] != s[j]
  }

  function RemoveAt<T>(s: seq<T>, i: nat): (r: seq<T>)
    requires i < |s|
    ensures |r| == |s| - 1
    ensures forall k :: 0 <= k < i ==> r[k] == s[k]
    ensures forall k :: i <= k < |r| ==> r[k] == s[k + 1]
  {
    s[..i] + s[i + 1..]
  }

  lemma DistinctLength<T>(s: seq<T>)
    requires Distinct(s)
    ensures |set x | x in s| == |s|
  {
    if s != [] {
      var last, rest := s[|s| - 1], s[..|s| - 1];
      DistinctLength(rest);
      assert (set x | x in s) == (set x | x in rest) + {last};
    }
  }

  lemma NonEmptyHas<T>(s: set<T>) returns (x: T)
    requires s != {}
    ensures x in s
  {
    x :| x in s;
  }

  lemma HeadIn<T>(s: seq<T>)
    ensures s != [] ==> s[0] in s
  {
  }

  lemma SubsetSize<T>(a: set<T>, b: set<T>)
    requires a <= b
    ensures |a| <= |b|
    ensures |a| == |b| ==> a == b
  {
    assert b == a + (b - a);
  }

  lemma NonEmptyHasMin(s: set<nat>)
    requires s != {}
    ensures exists m :: IsMin(s, m)
  {
    var x :| x in s;
    if s == {x} {
      assert IsMin(s, x);
    } else {
      NonEmptyHasMin(s - {x});
      var y :| IsMin(s - {x}, y);
      var m := if x < y then x else y;
      forall z | z in s ensures m <= z {
        assert z == x || z in s - {x};
      }
      assert IsMin(s, m);
    }
  }

  ghost predicate IsMin(s: set<nat>, m: nat) {
    m in s && forall x :: x in s ==> m <= x
  }

  ghost function MinOf(s: set<nat>): (m: nat)
    requires s != {}
    ensures IsMin(s, m)
  {
    NonEmptyHasMin(s);
    var m :| IsMin(s, m);
    m
  }

  /** The n smallest elements of s (all of s when it has no more than n). */
  ghost function Smallest(s: set<nat>, n: nat): (r: set<nat>)
    ensures r <= s
    decreases n
  {
    if n == 0 || s == {} then {}
    else
      var m := MinOf(s);
      {m} + Smallest(s - {m}, n - 1)
  }

  lemma {:induction false} SmallestSize(s: set<nat>, n: nat)
    ensures |Smallest(s, n)| == if |s| <= n then |s| else n
    ensures |s| <= n ==> Smallest(s, n) == s
    decreases n
  {
    if n > 0 && s != {} {
      var m := MinOf(s);
      var rest := s - {m};
      SmallestSize(rest, n - 1);
      assert s == {m} + rest;
      assert m !in Smallest(rest, n - 1);
    }
  }

  lemma {:induction false} SmallestBelow(s: set<nat>, n: nat, x: nat, y: nat)
    requires x in Smallest(s, n) && y in s && y !in Smallest(s, n)
    ensures x < y
    decreases n
  {
    var m := MinOf(s);
    if x != m {
      SmallestBelow(s - {m}, n - 1, x, y);
    }
  }
}
