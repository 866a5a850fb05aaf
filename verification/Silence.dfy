/** The counter of waits that bring nothing, and the cutoff that fails everything when it gets too high. */
module Silence {

  /** How the wait of an iteration ended: it was not reached, it timed out or failed, or it reported something. */
  datatype Wait = Skipped | Silent | Heard

  /** The counter after an iteration; one above 10 has been set back at the head of it. */
  ghost function LoopsAfter(loops: nat, w: Wait): nat {
    var from := if loops > 10 then 0 else loops;
    match w
    case Skipped => from
    case Silent => from + 1
    case Heard => 0
  }

  /** How many waits there had been at the last cutoff. */
  ghost function Since(cuts: seq<nat>): nat {
    if cuts == [] then 0 else cuts[|cuts| - 1]
  }

  ghost predicate AllSilent(waits: seq<Wait>, a: nat, b: nat) {
    b <= |waits| && forall i | a <= i < b :: waits[i] == Silent
  }

  /** The counter is the number of silent waits at the end, of those since the last cutoff. */
  ghost predicate Counts(waits: seq<Wait>, cuts: seq<nat>, loops: nat) {
    && Since(cuts) + loops <= |waits| && AllSilent(waits, |waits| - loops, |waits|)
    && (Since(cuts) + loops < |waits| ==> waits[|waits| - loops - 1] == Heard)
  }

  /** Every cutoff comes right after eleven silent waits in a row, all of them since the one before. */
  ghost predicate Earned(waits: seq<Wait>, cuts: seq<nat>) {
    forall k | 0 <= k < |cuts| ::
      && (if k == 0 then 0 else cuts[k - 1]) + 11 <= cuts[k] <= |waits|
      && AllSilent(waits, cuts[k] - 11, cuts[k])
  }

  /** No twelve waits in a row are silent without a cutoff among them. */
  ghost predicate Bounded(waits: seq<Wait>, cuts: seq<nat>) {
    forall a: nat, b: nat | AllSilent(waits, a, b) && b == a + 12 :: exists c :: c in cuts && a < c < b
  }

  lemma NoWaits()
    ensures Counts([], [], 0) && Earned([], []) && Bounded([], [])
  {
  }

  lemma AfterCutOff(waits: seq<Wait>, cuts: seq<nat>, loops: nat)
    requires Counts(waits, cuts, loops) && Earned(waits, cuts) && Bounded(waits, cuts) && loops > 10
    ensures Counts(waits, cuts + [|waits|], 0)
    ensures Earned(waits, cuts + [|waits|]) && Bounded(waits, cuts + [|waits|])
  {
    forall a: nat, b: nat | AllSilent(waits, a, b) && b == a + 12
      ensures exists c :: c in cuts + [|waits|] && a < c < b
    {
      var c :| c in cuts && a < c < b;
      assert c in cuts + [|waits|];
    }
  }

  lemma AfterSilent(waits: seq<Wait>, cuts: seq<nat>, loops: nat)
    requires Counts(waits, cuts, loops) && Earned(waits, cuts) && Bounded(waits, cuts) && loops <= 10
    ensures Counts(waits + [Silent], cuts, loops + 1)
    ensures Earned(waits + [Silent], cuts) && Bounded(waits + [Silent], cuts)
  {
    var more := waits + [Silent];
    assert forall i | 0 <= i < |waits| :: more[i] == waits[i];
    forall a: nat, b: nat | AllSilent(more, a, b) && b == a + 12 ensures exists c :: c in cuts && a < c < b {
      if b <= |waits| {
        assert AllSilent(waits, a, b);
      } else {
        assert Since(cuts) + loops == |waits|;
        assert Since(cuts) in cuts;
      }
    }
  }

  lemma AfterHeard(waits: seq<Wait>, cuts: seq<nat>, loops: nat)
    requires Counts(waits, cuts, loops) && Earned(waits, cuts) && Bounded(waits, cuts)
    ensures Counts(waits + [Heard], cuts, 0)
    ensures Earned(waits + [Heard], cuts) && Bounded(waits + [Heard], cuts)
  {
    var more := waits + [Heard];
    forall a: nat, b: nat | AllSilent(more, a, b) && b == a + 12 ensures exists c :: c in cuts && a < c < b {
      assert more[|waits|] == Heard;
      assert forall i | a <= i < b :: waits[i] == more[i];
      assert AllSilent(waits, a, b);
    }
  }

  // ---- Over any sequence of iterations

  /** The counter before each iteration and after the last, when it starts at 0. */
  ghost predicate Counter(loops: seq<nat>, waits: seq<Wait>) {
    && |loops| == |waits| + 1 && loops[0] == 0
    && forall i | 0 <= i < |waits| :: loops[i + 1] == LoopsAfter(loops[i], waits[i])
  }

  /** The silent waits of iterations `p` up to `n`. */
  ghost function SilentFrom(waits: seq<Wait>, p: nat, n: nat): set<int>
    requires n <= |waits|
  {
    set i | p <= i < n && waits[i] == Silent
  }

  /** Counting begins afresh with iteration `p`, and goes on to the head of iteration `n`. */
  ghost predicate Stretch(loops: seq<nat>, waits: seq<Wait>, p: nat, n: nat)
    requires |loops| == |waits| + 1
  {
    && p <= n <= |waits|
    && (p == 0 || waits[p - 1] == Heard || (p < n && loops[p] > 10))
    && forall i | p <= i < n :: waits[i] != Heard && (i > p ==> loops[i] <= 10)
  }

  lemma {:induction false} StretchTo(loops: seq<nat>, waits: seq<Wait>, n: nat) returns (p: nat)
    requires Counter(loops, waits) && n <= |waits|
    ensures Stretch(loops, waits, p, n)
  {
    if n == 0 || waits[n - 1] == Heard {
      p := n;
    } else if loops[n - 1] > 10 {
      p := n - 1;
    } else {
      p := StretchTo(loops, waits, n - 1);
    }
  }

  lemma BeginsAtZero(loops: seq<nat>, waits: seq<Wait>, p: nat)
    requires Counter(loops, waits) && p < |waits|
    requires p == 0 || waits[p - 1] == Heard || loops[p] > 10
    ensures loops[p] == 0 || loops[p] > 10
  {
    if p > 0 {
      assert loops[p - 1 + 1] == LoopsAfter(loops[p - 1], waits[p - 1]);
    }
  }

  lemma {:induction false} StretchCounts(loops: seq<nat>, waits: seq<Wait>, p: nat, n: nat)
    requires Counter(loops, waits) && Stretch(loops, waits, p, n)
    ensures loops[n] == |SilentFrom(waits, p, n)|
    decreases n - p
  {
    if p == n {
      assert SilentFrom(waits, p, n) == {};
      assert n > 0 ==> loops[n - 1 + 1] == LoopsAfter(loops[n - 1], waits[n - 1]);
    } else {
      var last := n - 1;
      assert loops[last + 1] == LoopsAfter(loops[last], waits[last]);
      var before := SilentFrom(waits, p, last);
      assert SilentFrom(waits, p, n) == before + if waits[last] == Silent then {last} else {};
      if last == p {
        assert before == {};
        BeginsAtZero(loops, waits, p);
      } else {
        StretchCounts(loops, waits, p, last);
      }
    }
  }

  lemma {:induction false} NeverAboveEleven(loops: seq<nat>, waits: seq<Wait>, n: nat)
    requires Counter(loops, waits) && n <= |waits|
    ensures loops[n] <= 11
  {
    if n > 0 {
      NeverAboveEleven(loops, waits, n - 1);
      assert loops[n - 1 + 1] == LoopsAfter(loops[n - 1], waits[n - 1]);
    }
  }

  /**
   * At every head of every sequence of iterations the counter is the number of silent waits since the last
   * report, cutoff or beginning, so the cutoff happens exactly when there have been eleven of them.
   */
  lemma CutOffAfterEleven(loops: seq<nat>, waits: seq<Wait>, n: nat)
    requires Counter(loops, waits) && n <= |waits|
    ensures exists p :: Stretch(loops, waits, p, n)
    ensures forall p | Stretch(loops, waits, p, n) :: loops[n] == |SilentFrom(waits, p, n)|
    ensures loops[n] > 10 <==> exists p :: Stretch(loops, waits, p, n) && |SilentFrom(waits, p, n)| == 11
  {
    var q := StretchTo(loops, waits, n);
    forall p | Stretch(loops, waits, p, n) ensures loops[n] == |SilentFrom(waits, p, n)| {
      StretchCounts(loops, waits, p, n);
    }
    NeverAboveEleven(loops, waits, n);
  }
}
