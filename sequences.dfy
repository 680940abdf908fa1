/** Reversal of a sequence, as `Vec::reverse` performs it, with the facts
    the send pipeline relies on: it keeps the length and the multiset of
    elements, moves element `k` to position `n - 1 - k`, and undoes itself. */
module Sequences {

  function Reversed<T>(s: seq<T>): (r: seq<T>)
    ensures |r| == |s|
  {
    if s == [] then [] else Reversed(s[1..]) + [s[0]]
  }

  lemma {:induction false} ReversedAt<T>(s: seq<T>, k: nat)
    requires k < |s|
    ensures Reversed(s)[k] == s[|s| - 1 - k]
  {
    if k < |s| - 1 {
      ReversedAt(s[1..], k);
    }
  }

  lemma ReversedIndices<T>(s: seq<T>)
    ensures forall k :: 0 <= k < |s| ==> Reversed(s)[k] == s[|s| - 1 - k]
  {
    forall k | 0 <= k < |s|
      ensures Reversed(s)[k] == s[|s| - 1 - k]
    {
      ReversedAt(s, k);
    }
  }

  lemma {:induction false} ReversedMultiset<T>(s: seq<T>)
    ensures multiset(Reversed(s)) == multiset(s)
  {
    if s != [] {
      ReversedMultiset(s[1..]);
      assert s == [s[0]] + s[1..];
    }
  }

  lemma ReversedTwice<T>(s: seq<T>)
    ensures Reversed(Reversed(s)) == s
  {
    forall k | 0 <= k < |s|
      ensures Reversed(Reversed(s))[k] == s[k]
    {
      ReversedAt(Reversed(s), k);
      ReversedAt(s, |s| - 1 - k);
    }
  }

  /** Reverses `a` in place, as `trytes.reverse()` does: the front index
      and the back index move towards each other, exchanging the two
      entries they reach. Everything before `front` and from `back` on
      already holds its final value; the middle is still untouched. */
  method ReverseInPlace<T>(a: array<T>)
    modifies a
    ensures a[..] == Reversed(old(a[..]))
  {
    ghost var original := a[..];
    ghost var target := Reversed(original);
    var front, back := 0, a.Length;
    while front + 1 < back
      invariant 0 <= front <= back <= a.Length && front + back == a.Length
      invariant forall k :: 0 <= k < front ==> a[k] == target[k]
      invariant forall k :: front <= k < back ==> a[k] == original[k]
      invariant forall k :: back <= k < a.Length ==> a[k] == target[k]
    {
      back := back - 1;
      ReversedAt(original, front);
      ReversedAt(original, back);
      a[front], a[back] := a[back], a[front];
      front := front + 1;
    }
    if front < back {
      ReversedAt(original, front);
    }
    assert a[..] == target;
  }
}
