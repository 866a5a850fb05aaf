/** Runs: sequences of events, each enabled in the world the earlier ones lead to. */
module Runs {
  import opened Schedule
  import opened Clients
  import opened Protocol

  ghost predicate Legal(w0: World, log: seq<Event>)
    decreases |log|, 0
  {
    log == [] ||
    (Legal(w0, log[..|log| - 1]) && Enabled(Outcome(w0, log[..|log| - 1]), log[|log| - 1]))
  }

  ghost function Outcome(w0: World, log: seq<Event>): World
    requires Legal(w0, log)
    decreases |log|, 1
  {
    if log == [] then w0 else Apply(Outcome(w0, log[..|log| - 1]), log[|log| - 1])
  }

  lemma Extended(w0: World, log: seq<Event>, e: Event)
    requires Legal(w0, log) && Enabled(Outcome(w0, log), e)
    ensures Legal(w0, log + [e]) && Outcome(w0, log + [e]) == Apply(Outcome(w0, log), e)
  {
    assert (log + [e])[..|log|] == log;
  }

  /** Every prefix of a run is a run, and its next event was enabled then. */
  lemma {:induction false} PrefixLegal(w0: World, log: seq<Event>, n: nat)
    requires Legal(w0, log) && n <= |log|
    ensures Legal(w0, log[..n])
    ensures n < |log| ==> Enabled(Outcome(w0, log[..n]), log[n]) && Legal(w0, log[..n + 1]) &&
                          Outcome(w0, log[..n + 1]) == Apply(Outcome(w0, log[..n]), log[n])
    decreases |log|
  {
    if n == |log| {
      assert log[..n] == log;
    } else {
      var front := log[..|log| - 1];
      assert front[..n] == log[..n];
      PrefixLegal(w0, front, n);
      if n < |front| {
        assert front[..n + 1] == log[..n + 1];
      } else {
        assert log[..n + 1] == log && log[..n] == front;
      }
    }
  }

  /** The invariant holds after every run from a fresh schedule and client list. */
  lemma {:induction false} RunInv(w0: World, log: seq<Event>)
    requires Initial(w0) && Legal(w0, log)
    ensures Inv(Outcome(w0, log))
    decreases |log|
  {
    if log == [] {
      InitialInv(w0);
    } else {
      RunInv(w0, log[..|log| - 1]);
      StepInv(Outcome(w0, log[..|log| - 1]), log[|log| - 1]);
    }
  }
}
