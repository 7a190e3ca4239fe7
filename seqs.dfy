/** Sequence helpers shared by the collision code: filtering a sequence by a
    boolean mask (what a collision query returns and what it leaves behind),
    removing one element by identity (a sprite group's `remove`), and the
    facts about them that the collision phases rely on. */
module Seqs {

  /** No element occurs twice: a sprite group holds each sprite at most once. */
  predicate Distinct<T(==)>(s: seq<T>) {
    forall i, j :: 0 <= i < j < |s| ==> s[i] != s[j]
  }

  /** The elements of `s` whose mask bit is set, in their original order. */
  function Keep<T(==)>(s: seq<T>, m: seq<bool>): (r: seq<T>)
    requires |m| == |s|
    ensures |r| <= |s|
    ensures forall x :: x in r ==> x in s
    ensures forall i :: 0 <= i < |s| && m[i] ==> s[i] in r
    decreases |s|
  {
    if s == [] then [] else (if m[0] then [s[0]] else []) + Keep(s[1..], m[1..])
  }

  /** The elements of `s` whose mask bit is clear, in their original order. */
  function Drop<T(==)>(s: seq<T>, m: seq<bool>): (r: seq<T>)
    requires |m| == |s|
    ensures |r| <= |s|
    ensures forall x :: x in r ==> x in s
    ensures forall i :: 0 <= i < |s| && !m[i] ==> s[i] in r
    decreases |s|
  {
    if s == [] then [] else (if m[0] then [] else [s[0]]) + Drop(s[1..], m[1..])
  }

  /** A mask splits a sequence: what is kept and what is dropped add up to all of it. */
  lemma {:induction false} KeepDropSize<T>(s: seq<T>, m: seq<bool>)
    requires |m| == |s|
    ensures |Keep(s, m)| + |Drop(s, m)| == |s|
    decreases |s|
  {
    if s != [] {
      KeepDropSize(s[1..], m[1..]);
    }
  }

  /** Filtering a group keeps it free of duplicates. */
  lemma {:induction false} KeepDistinct<T>(s: seq<T>, m: seq<bool>)
    requires |m| == |s| && Distinct(s)
    ensures Distinct(Keep(s, m)) && Distinct(Drop(s, m))
    decreases |s|
  {
    if s != [] {
      assert Distinct(s[1..]);
      KeepDistinct(s[1..], m[1..]);
      assert s[0] !in s[1..];
    }
  }

  /** `s` with every occurrence of `x` taken out. */
  function Remove<T(==)>(s: seq<T>, x: T): (r: seq<T>)
    ensures |r| <= |s|
    ensures forall y :: y in r ==> y in s && y != x
    ensures forall y :: y in s && y != x ==> y in r
    decreases |s|
  {
    if s == [] then [] else (if s[0] == x then [] else [s[0]]) + Remove(s[1..], x)
  }

  lemma {:induction false} RemoveAbsent<T>(s: seq<T>, x: T)
    requires x !in s
    ensures Remove(s, x) == s
    decreases |s|
  {
    if s != [] {
      RemoveAbsent(s[1..], x);
    }
  }

  /** Removing an element a second time changes nothing. */
  lemma {:induction false} RemoveTwice<T>(s: seq<T>, x: T)
    ensures Remove(Remove(s, x), x) == Remove(s, x)
  {
    RemoveAbsent(Remove(s, x), x);
  }

  /** The members of a non-empty sequence are its first element and the members of the rest. */
  lemma HeadTail<T>(s: seq<T>)
    requires s != []
    ensures forall x :: x in s <==> x == s[0] || x in s[1..]
  {
    assert s == [s[0]] + s[1..];
  }

  /** The members of a non-empty sequence are the members of all but its last
      element, and that last element. */
  lemma InitLast<T>(s: seq<T>)
    requires s != []
    ensures forall x :: x in s <==> x in s[..|s| - 1] || x == s[|s| - 1]
  {
    assert s == s[..|s| - 1] + [s[|s| - 1]];
  }

  /** A mask that selects nothing keeps nothing and drops everything. */
  lemma {:induction false} KeepNone<T>(s: seq<T>, m: seq<bool>)
    requires |m| == |s| && forall i :: 0 <= i < |m| ==> !m[i]
    ensures Keep(s, m) == [] && Drop(s, m) == s
    decreases |s|
  {
    if s != [] {
      KeepNone(s[1..], m[1..]);
    }
  }

  lemma {:induction false} RemoveAppend<T>(a: seq<T>, b: seq<T>, x: T)
    ensures Remove(a + b, x) == Remove(a, x) + Remove(b, x)
    decreases |a|
  {
    if a == [] {
      assert a + b == b;
    } else {
      assert (a + b)[1..] == a[1..] + b;
      RemoveAppend(a[1..], b, x);
    }
  }

  /** Removing the element at position k of a duplicate-free sequence deletes exactly that position. */
  lemma {:induction false} RemoveAt<T>(s: seq<T>, k: nat)
    requires k < |s| && Distinct(s)
    ensures Remove(s, s[k]) == s[..k] + s[k + 1..]
    decreases k
  {
    var t := s[1..];
    assert Distinct(t);
    if k == 0 {
      assert s[0] !in t;
      RemoveAbsent(t, s[0]);
      assert s[..0] + s[1..] == t;
    } else {
      assert t[k - 1] == s[k] && s[0] != s[k];
      RemoveAt(t, k - 1);
      assert s[..k] + s[k + 1..] == [s[0]] + (t[..k - 1] + t[k..]);
    }
  }

  lemma {:induction false} RemoveDistinct<T>(s: seq<T>, x: T)
    requires Distinct(s)
    ensures Distinct(Remove(s, x))
    decreases |s|
  {
    if s != [] {
      assert Distinct(s[1..]);
      RemoveDistinct(s[1..], x);
      assert s[0] !in s[1..];
    }
  }

  /** Remove each element of `xs` from `s`, one after the other. */
  function RemoveAll<T(==)>(s: seq<T>, xs: seq<T>): (r: seq<T>)
    decreases |xs|
  {
    if xs == [] then s else RemoveAll(Remove(s, xs[0]), xs[1..])
  }

  lemma {:induction false} RemoveAllSkipsHead<T>(a: T, t: seq<T>, xs: seq<T>)
    requires a !in xs
    ensures RemoveAll([a] + t, xs) == [a] + RemoveAll(t, xs)
    decreases |xs|
  {
    if xs != [] {
      assert ([a] + t)[1..] == t;
      assert Remove([a] + t, xs[0]) == [a] + Remove(t, xs[0]);
      RemoveAllSkipsHead(a, Remove(t, xs[0]), xs[1..]);
    }
  }

  /** Removing, one by one, the elements a mask selects leaves what the mask drops. */
  lemma {:induction false} RemoveAllKept<T>(s: seq<T>, m: seq<bool>)
    requires |m| == |s| && Distinct(s)
    ensures RemoveAll(s, Keep(s, m)) == Drop(s, m)
    decreases |s|
  {
    if s != [] {
      var t := s[1..];
      assert s == [s[0]] + t;
      assert Distinct(t);
      assert s[0] !in t;
      var kt := Keep(t, m[1..]);
      RemoveAllKept(t, m[1..]);
      if m[0] {
        assert Keep(s, m) == [s[0]] + kt;
        assert Remove(s, s[0]) == t by {
          RemoveAppend([s[0]], t, s[0]);
          RemoveAbsent(t, s[0]);
          assert Remove([s[0]], s[0]) == [];
        }
        assert ([s[0]] + kt)[1..] == kt;
      } else {
        assert Keep(s, m) == kt;
        assert s[0] !in kt;
        RemoveAllSkipsHead(s[0], t, kt);
      }
    }
  }
}
