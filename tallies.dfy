/** Rearrangements of a list, and totals that do not depend on the order. */
module Tallies {

  /** In a rearrangement of a nonempty list, the last element of the one
      sits at some position `k` of the other, and removing the two leaves
      rearrangements of each other. */
  lemma PermutationSplit<T>(s: seq<T>, t: seq<T>) returns (k: nat)
    requires multiset(s) == multiset(t) && s != []
    ensures k < |t| && t[k] == s[|s| - 1]
    ensures multiset(s[..|s| - 1]) == multiset(t[..k] + t[k + 1..])
  {
    var x := s[|s| - 1];
    assert s == s[..|s| - 1] + [x];
    assert x in multiset(t);
    k :| 0 <= k < |t| && t[k] == x;
    assert t == t[..k] + [x] + t[k + 1..];
    calc {
      multiset(s[..|s| - 1]) + multiset{x};
      multiset(s);
      multiset(t);
      multiset(t[..k]) + multiset{x} + multiset(t[k + 1..]);
      multiset(t[..k] + t[k + 1..]) + multiset{x};
    }
    var a, b := multiset(s[..|s| - 1]), multiset(t[..k] + t[k + 1..]);
    assert a == (a + multiset{x}) - multiset{x};
    assert b == (b + multiset{x}) - multiset{x};
  }

  /** The sum of `g` over a list, from the front. */
  function Tally<T>(s: seq<T>, g: T -> real): real {
    if s == [] then 0.0 else Tally(s[..|s| - 1], g) + g(s[|s| - 1])
  }

  lemma {:induction false} TallyAppend<T>(a: seq<T>, b: seq<T>, g: T -> real)
    ensures Tally(a + b, g) == Tally(a, g) + Tally(b, g)
  {
    if b == [] {
      assert a + b == a;
    } else {
      assert (a + b)[..|a + b| - 1] == a + b[..|b| - 1];
      TallyAppend(a, b[..|b| - 1], g);
    }
  }

  /** Rearranging a list does not change its tally. */
  lemma {:induction false} TallyPermutation<T>(s: seq<T>, t: seq<T>, g: T -> real)
    requires multiset(s) == multiset(t)
    ensures Tally(s, g) == Tally(t, g)
    decreases |s|
  {
    if s == [] {
      assert |t| == |multiset(t)| == 0;
    } else {
      var k := PermutationSplit(s, t);
      var rest := t[..k] + t[k + 1..];
      TallyPermutation(s[..|s| - 1], rest, g);
      assert t == t[..k] + [t[k]] + t[k + 1..];
      TallyAppend(t[..k] + [t[k]], t[k + 1..], g);
      TallyAppend(t[..k], [t[k]], g);
      TallyAppend(t[..k], t[k + 1..], g);
      assert Tally([t[k]], g) == g(t[k]) by {
        assert [t[k]][..0] == [];
      }
    }
  }
}
