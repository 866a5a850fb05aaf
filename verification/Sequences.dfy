/** Facts about sequences, sets and multisets that the other modules share. */
module Sequences {

  /** No element occurs twice. */
  ghost predicate NoDup<T>(s: seq<T>) {
    forall i, j :: 0 <= i < j < |s| ==> s[i] != s[j]
  }

  function ToSet<T>(s: seq<T>): set<T> {
    set x | x in s
  }

  /** A sequence has at least as many positions as distinct elements, and exactly as many when nothing repeats. */
  lemma {:induction false} SetSize<T>(s: seq<T>)
    ensures |ToSet(s)| <= |s|
    ensures |ToSet(s)| == |s| <==> NoDup(s)
  {
    if s == [] {
    } else {
      var front, last := s[..|s| - 1], s[|s| - 1];
      SetSize(front);
      assert s == front + [last];
      assert ToSet(s) == ToSet(front) + {last};
      if last in front {
        assert ToSet(s) == ToSet(front);
        var i :| 0 <= i < |front| && front[i] == last;
        assert s[i] == s[|s| - 1];
      } else {
        assert NoDup(front) ==> NoDup(s);
        if NoDup(s) {
          assert forall i, j :: 0 <= i < j < |front| ==> front[i] == s[i] && front[j] == s[j];
          assert NoDup(front);
        }
      }
    }
  }

  lemma SubsetSize<T>(a: set<T>, b: set<T>)
    requires a <= b
    ensures |a| <= |b|
    ensures |a| == |b| ==> a == b
  {
    assert b == a + (b - a);
    assert |b| == |a| + |b - a|;
  }

  /** An injective image of a finite set is no larger than the set it lands in. */
  lemma {:induction false} Pigeonhole<T, U>(a: set<T>, f: map<T, U>, b: set<U>)
    requires a <= f.Keys
    requires forall x | x in a :: f[x] in b
    requires forall x, y | x in a && y in a && x != y :: f[x] != f[y]
    ensures |a| <= |b|
    decreases a
  {
    if a == {} {
    } else {
      var x :| x in a;
      Pigeonhole(a - {x}, f, b - {f[x]});
    }
  }

  /** The multiset without one position. */
  lemma WithoutOne<T>(s: seq<T>, i: nat)
    requires i < |s|
    ensures multiset(s) == multiset(s[..i] + s[i + 1..]) + multiset{s[i]}
  {
    assert s == s[..i] + [s[i]] + s[i + 1..];
  }

  lemma CancelOne<T>(a: multiset<T>, b: multiset<T>, x: T)
    requires a + multiset{x} == b + multiset{x}
    ensures a == b
  {
    assert a == (a + multiset{x}) - multiset{x};
    assert b == (b + multiset{x}) - multiset{x};
  }

  lemma LastApart<T>(s: seq<T>)
    requires s != []
    ensures multiset(s) == multiset(s[..|s| - 1]) + multiset{s[|s| - 1]}
  {
    assert s == s[..|s| - 1] + [s[|s| - 1]];
  }

  /** Swap-remove: position `i` takes the last element and the sequence loses its end. */
  function SwapRemove<T>(s: seq<T>, i: nat): (r: seq<T>)
    requires i < |s|
    ensures |r| == |s| - 1
  {
    s[i := s[|s| - 1]][..|s| - 1]
  }

  lemma SwapRemoveElements<T>(s: seq<T>, i: nat)
    requires i < |s| && NoDup(s)
    ensures NoDup(SwapRemove(s, i))
    ensures ToSet(SwapRemove(s, i)) == ToSet(s) - {s[i]}
    ensures SwapRemove(s, i)[..i] == s[..i]
  {
    var r := SwapRemove(s, i);
    assert forall k :: 0 <= k < |r| ==> r[k] == if k == i then s[|s| - 1] else s[k];
    forall x ensures x in ToSet(r) <==> x in ToSet(s) - {s[i]} {
      if x in s && x != s[i] {
        var k :| 0 <= k < |s| && s[k] == x;
        if k == |s| - 1 {
          assert r[i] == x;
        } else {
          assert r[k] == x;
        }
      }
    }
  }

  /** The positions at which the flags are true, in order. */
  ghost function Flagged(flags: seq<bool>): seq<nat> {
    if flags == [] then [] else
      Flagged(flags[..|flags| - 1]) + if flags[|flags| - 1] then [|flags| - 1] else []
  }

  /** They are increasing, and they are exactly the positions at which the flag is true. */
  lemma {:induction false} FlaggedIs(flags: seq<bool>)
    ensures forall k | 0 <= k < |Flagged(flags)| :: Flagged(flags)[k] < |flags| && flags[Flagged(flags)[k]]
    ensures forall k, l | 0 <= k < l < |Flagged(flags)| :: Flagged(flags)[k] < Flagged(flags)[l]
    ensures forall i | 0 <= i < |flags| && flags[i] :: i in Flagged(flags)
  {
    if flags != [] {
      var n := |flags| - 1;
      FlaggedIs(flags[..n]);
      var before := Flagged(flags[..n]);
      forall i | 0 <= i < |flags| && flags[i] ensures i in Flagged(flags) {
        if i < n {
          assert flags[..n][i];
        } else {
          assert Flagged(flags)[|before|] == n;
        }
      }
    }
  }
}
