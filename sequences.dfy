/** Concatenation of a list of lists, as `concat` in a loop and `flatMap` do. */
module Sequences {

  function Concat<T>(lists: seq<seq<T>>): (r: seq<T>) {
    if lists == [] then [] else Concat(lists[..|lists| - 1]) + lists[|lists| - 1]
  }

  lemma ConcatSnoc<T>(lists: seq<seq<T>>, last: seq<T>)
    ensures Concat(lists + [last]) == Concat(lists) + last
  {
    assert (lists + [last])[..|lists|] == lists;
  }

  /** A loop over `lists` that has handled the first `t` lists and now
      appends the next one. */
  lemma ConcatPrefixStep<T>(lists: seq<seq<T>>, t: nat)
    requires t < |lists|
    ensures Concat(lists[..t + 1]) == Concat(lists[..t]) + lists[t]
  {
    assert lists[..t + 1] == lists[..t] + [lists[t]];
    ConcatSnoc(lists[..t], lists[t]);
  }

  /** A loop over `xs`, after the elements `done` already handled, that has
      handled the first `j` elements of `xs` and now handles the next one. */
  lemma PrefixStep<T>(done: seq<T>, xs: seq<T>, j: nat)
    requires j < |xs|
    ensures done + xs[..j + 1] == (done + xs[..j]) + [xs[j]]
  {
    assert xs[..j + 1] == xs[..j] + [xs[j]];
  }

  /** Concatenating two runs of lists is concatenating their results. */
  lemma {:induction false} ConcatAppend<T>(a: seq<seq<T>>, b: seq<seq<T>>)
    ensures Concat(a + b) == Concat(a) + Concat(b)
  {
    if b != [] {
      var b' := b[..|b| - 1];
      assert a + b == (a + b') + [b[|b| - 1]];
      ConcatSnoc(a + b', b[|b| - 1]);
      ConcatAppend(a, b');
      ConcatSnoc(b', b[|b| - 1]);
      assert b == b' + [b[|b| - 1]];
    } else {
      assert a + b == a;
    }
  }

  /** An element of the concatenation comes from one of the lists, and back. */
  lemma {:induction false} ConcatMembership<T>(lists: seq<seq<T>>, x: T)
    ensures x in Concat(lists) <==> exists k :: 0 <= k < |lists| && x in lists[k]
  {
    if lists != [] {
      var p := lists[..|lists| - 1];
      ConcatMembership(p, x);
      if x in Concat(p) {
        var k :| 0 <= k < |p| && x in p[k];
        assert lists[k] == p[k];
      }
      if exists k :: 0 <= k < |lists| && x in lists[k] {
        var k :| 0 <= k < |lists| && x in lists[k];
        if k < |p| { assert p[k] == lists[k]; }
      }
    }
  }

  /** The length of the concatenation is the sum of the lengths. */
  function TotalLength<T>(lists: seq<seq<T>>): nat {
    if lists == [] then 0 else TotalLength(lists[..|lists| - 1]) + |lists[|lists| - 1]|
  }

  lemma {:induction false} ConcatLength<T>(lists: seq<seq<T>>)
    ensures |Concat(lists)| == TotalLength(lists)
  {
    if lists != [] {
      ConcatLength(lists[..|lists| - 1]);
    }
  }

  /** An empty list in the middle adds nothing: dropping it leaves the
      concatenation unchanged. */
  lemma ConcatWithoutEmpty<T>(lists: seq<seq<T>>, k: nat)
    requires k < |lists| && lists[k] == []
    ensures Concat(lists) == Concat(lists[..k] + lists[k + 1..])
  {
    assert lists == (lists[..k] + [lists[k]]) + lists[k + 1..];
    ConcatAppend(lists[..k] + [lists[k]], lists[k + 1..]);
    ConcatSnoc(lists[..k], lists[k]);
    ConcatAppend(lists[..k], lists[k + 1..]);
  }
}
