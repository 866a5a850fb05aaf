/**
 * How long a measurement can be kept at work while the scheduler goes on handing out others. Every iteration
 * hands out something that is ready, if anything is, and a measurement that panics must not be all there is.
 */
module Outlasting {
  import opened Sequences
  import opened Schedule
  import opened Clients
  import opened Staffing
  import opened Protocol
  import opened Runs
  import opened Progress
  import opened Liveness
  import opened Heads
  import opened History
  import opened Looping
  import opened Starting
  import opened Crews

  /** `k` can be started, and neither of the two needs the other. */
  ghost predicate Independent(tbl: Table, m: nat, k: nat) {
    k != m && CanStart(tbl, k) && !Needs(tbl, m, k) && !Needs(tbl, k, m)
  }

  ghost function IndependentOf(tbl: Table, m: nat): set<nat> {
    set k | k in tbl && Independent(tbl, m, k)
  }

  /** `x` can be ready, panics at its start, and does not wait for `m`. */
  ghost predicate Threatens(tbl: Table, m: nat, x: nat) {
    x in tbl && CanBeReady(tbl, x) && Panics(tbl[x]) && !Needs(tbl, x, m)
  }

  /**
   * These measurements can be kept running beside `m`, all staffed at once, and whatever threatens `m` waits
   * for one of them.
   */
  ghost predicate Beside(w0: World, m: nat, ks: seq<nat>) {
    && NoDup(ks) && m in w0.table
    && (forall k | k in ks :: k in w0.table && Independent(w0.table, m, k) && Usable(w0.table[k]))
    && (forall k, l | k in ks && l in ks :: !Needs(w0.table, k, l))
    && Staffable(w0.clients, HostsOf(w0.table, ks + [m]))
    && forall x | Threatens(w0.table, m, x) :: exists k :: k in ks && Needs(w0.table, x, k)
  }

  /**
   * `m` can be kept at work through `n` more iterations: there are that many others to be started meanwhile,
   * or some can be kept running beside it so that nothing at all is ready.
   */
  ghost predicate Outlasts(w0: World, m: nat, n: nat) {
    |IndependentOf(w0.table, m)| >= n || exists ks :: Beside(w0, m, ks)
  }

  // ---- What runs together

  lemma RunningClosed(w0: World, log: seq<Event>, m: nat)
    requires Initial(w0) && Legal(w0, log) && Running(Outcome(w0, log), m)
    ensures Closed(w0.table, {m} + EndedIn(Outcome(w0, log).table, Pending(w0.table)))
  {
    RunPlan(w0, log);
    StatusTellsHistory(w0, log, m);
    RunDependsEnded(w0, log);
    InitialPending(w0);
  }

  /** All that something ready or running needs is complete. */
  lemma NeededComplete(w0: World, log: seq<Event>, m: nat, d: nat)
    requires Initial(w0) && Legal(w0, log) && m in Outcome(w0, log).table && Needs(w0.table, m, d)
    requires Ready(Outcome(w0, log).table[m]) || Running(Outcome(w0, log), m)
    ensures d in Outcome(w0, log).table && Outcome(w0, log).table[d].status == Complete
  {
    if Ready(Outcome(w0, log).table[m]) {
      EndedClosed(w0, log, m);
    } else {
      RunningClosed(w0, log, m);
    }
  }

  /** Measurements that run at the same time are independent. */
  lemma BothRun(w0: World, log: seq<Event>, m: nat, k: nat)
    requires Initial(w0) && Legal(w0, log) && Running(Outcome(w0, log), m) && Running(Outcome(w0, log), k) && k != m
    ensures k in w0.table && Independent(w0.table, m, k)
  {
    StartedWaited(w0, log, k);
    hide Initial, Legal, Outcome, CanStart, Needs;
    if Needs(w0.table, m, k) {
      NeededComplete(w0, log, m, k);
    }
    if Needs(w0.table, k, m) {
      NeededComplete(w0, log, k, m);
    }
  }

  /** What is started while `m` runs is independent of it. */
  lemma StartBeside(w0: World, log: seq<Event>, m: nat, e: Event)
    requires Initial(w0) && Legal(w0, log) && Running(Outcome(w0, log), m)
    requires e.Start? && Enabled(Outcome(w0, log), e)
    ensures e.m in w0.table && Independent(w0.table, m, e.m)
  {
    Extended(w0, log, e);
    hide Initial, Legal, Outcome, CanStart, Needs, Panics;
    assert e.m != m && Running(Apply(Outcome(w0, log), e), m);
    BothRun(w0, log + [e], m, e.m);
  }

  // ---- Nothing ready

  lemma WithStartable(tbl: Table, x: nat)
    requires DependsPending(tbl) && CanBeReady(tbl, x)
    ensures Closed(tbl, {x} + Startable(tbl))
  {
    StartableClosed(tbl);
    forall d | d in tbl[x].depends ensures d in Startable(tbl) {
      PendingOnly(tbl, d);
    }
  }

  lemma NeedsIn(tbl: Table, x: nat, y: nat, s: set<nat>)
    requires Needs(tbl, x, y) && Closed(tbl, s) && x in s
    ensures y in s && y != x
  {
  }

  lemma DependNeeded(tbl: Table, x: nat, d: nat)
    requires x in tbl && d in tbl[x].depends && d != x
    ensures Needs(tbl, x, d)
  {
  }

  lemma NeedsThrough(tbl: Table, x: nat, y: nat, d: nat)
    requires Needs(tbl, x, y) && y in tbl && d in tbl[y].depends && d != x
    ensures Needs(tbl, x, d)
  {
  }

  ghost function NeededBy(tbl: Table, x: nat): set<nat> {
    set y | y in tbl && Needs(tbl, x, y)
  }

  /** What a measurement that can be ready needs can be started. */
  lemma NeededStartable(tbl: Table, x: nat, y: nat)
    requires DependsPending(tbl) && CanBeReady(tbl, x) && Needs(tbl, x, y)
    ensures y != x && CanStart(tbl, y)
  {
    WithStartable(tbl, x);
    hide CanStart, CanBeReady, Needs;
    NeedsIn(tbl, x, y, {x} + Startable(tbl));
  }

  /** Nothing it needs depends on it. */
  lemma NotBackwards(tbl: Table, x: nat, y: nat)
    requires DependsPending(tbl) && CanBeReady(tbl, x) && (y == x || Needs(tbl, x, y))
    requires y in tbl && Panics(tbl[x])
    ensures x !in tbl[y].depends
  {
    CanStartIff(tbl, x);
    hide Panics, CanStart;
    if x in tbl[y].depends && y != x {
      NeededStartable(tbl, x, y);
      DependsCanStart(tbl, y, x);
    }
  }

  lemma BeReadyPending(tbl: Table, x: nat)
    requires CanBeReady(tbl, x)
    ensures x in Pending(tbl) && NoDup(tbl[x].depends)
  {
  }

  lemma NeededClosed(tbl: Table, x: nat)
    requires DependsPending(tbl) && CanBeReady(tbl, x) && Panics(tbl[x])
    ensures Closed(tbl, NeededBy(tbl, x)) && NeededBy(tbl, x) <= Startable(tbl)
    ensures forall d | d in tbl[x].depends :: d in NeededBy(tbl, x)
  {
    hide CanBeReady, Panics, CanStart, Needs;
    forall y | y in NeededBy(tbl, x) ensures y in Startable(tbl) && y in Pending(tbl) {
      NeededStartable(tbl, x, y);
      PendingOnly(tbl, y);
    }
    BeReadyPending(tbl, x);
    forall y, d | (y == x || y in NeededBy(tbl, x)) && d in tbl[y].depends ensures d in NeededBy(tbl, x) {
      NotBackwards(tbl, x, y);
      if y == x {
        DependNeeded(tbl, x, d);
      } else {
        NeedsThrough(tbl, x, y, d);
      }
    }
  }

  lemma NeedsUnblocked(w0: World, x: nat)
    requires Initial(w0) && CanBeReady(w0.table, x) && Panics(w0.table[x])
    ensures NeededBy(w0.table, x) <= Pending(w0.table) && Unblocked(w0.table, NeededBy(w0.table, x))
    ensures forall d | d in w0.table[x].depends :: d in NeededBy(w0.table, x)
  {
    var tbl := w0.table;
    InitialPending(w0);
    hide Initial, Panics, Unblocked, NeededBy, CanBeReady;
    NeededClosed(tbl, x);
    StartableUnblocked(tbl, NeededBy(tbl, x));
    assert NeededBy(tbl, x) * Startable(tbl) == NeededBy(tbl, x);
    ClosedPending(tbl, NeededBy(tbl, x));
  }

  lemma PanicWaits(w0: World, log: seq<Event>, x: nat)
    requires Initial(w0) && Legal(w0, log) && x in Pending(w0.table) && Panics(w0.table[x])
    ensures x in Outcome(w0, log).table && Outcome(w0, log).table[x].status == Waiting
  {
    assert Blocked(w0.table, {x});
    BlockedNeverStarts(w0, log, {x});
  }

  /** With nothing ready, whatever threatens `m` waits for something else that runs. */
  lemma ThreatHeld(w0: World, log: seq<Event>, m: nat, x: nat) returns (r: nat)
    requires Initial(w0) && Legal(w0, log) && Threatens(w0.table, m, x)
    requires NoReady(Outcome(w0, log))
    ensures Running(Outcome(w0, log), r) && r != m && Needs(w0.table, x, r)
  {
    var w := Outcome(w0, log);
    var s := NeededBy(w0.table, x);
    NeedsUnblocked(w0, x);
    UnblockedStill(w0, log, s);
    RunInv(w0, log);
    RunPlan(w0, log);
    PanicWaits(w0, log, x);
    hide Initial, Legal, Outcome, Needs, Panics, Unblocked, CanStart;
    if forall k | k in s :: w.table[k].status != InProgress {
      if exists k :: k in s && w.table[k].status != Complete {
        SomethingReady(w.table, s);
      }
      PlanFor(w0, w, x);
      ReadyMeansDependsDone(w.table, x);
      assert false;
    }
    r :| r in s && w.table[r].status == InProgress;
  }

  lemma {:induction false} InSequence(s: set<nat>) returns (q: seq<nat>)
    ensures NoDup(q) && ToSet(q) == s
    decreases s
  {
    if s == {} {
      q := [];
      assert ToSet(q) == {};
    } else {
      var k :| k in s;
      var p := InSequence(s - {k});
      assert k !in ToSet(p);
      q := p + [k];
      assert ToSet(q) == ToSet(p) + {k};
    }
  }

  ghost function OthersRunning(w: World, m: nat): set<nat> {
    set k | k in w.table && w.table[k].status == InProgress && k != m
  }

  /** When nothing is ready while `m` runs, what else runs can be kept running beside it. */
  lemma NoneMeansBeside(w0: World, log: seq<Event>, m: nat) returns (ks: seq<nat>)
    requires Initial(w0) && Legal(w0, log) && Running(Outcome(w0, log), m) && AtHead(Outcome(w0, log))
    requires NoReady(Outcome(w0, log))
    ensures Beside(w0, m, ks)
  {
    var w := Outcome(w0, log);
    ks := InSequence(OthersRunning(w, m));
    RunInv(w0, log);
    RunPlan(w0, log);
    hide Initial, Legal, Outcome, Needs, Panics, Inv, SamePlan;
    forall k | k in ks ensures k in ToSet(ks) {}
    forall k | k in ks ensures Running(w, k) && k != m && Full(w, k) && Usable(w.table[k]) {
      assert Paired(w, k);
    }
    assert Paired(w, m);
    forall k | k in ks ensures k in w0.table && Independent(w0.table, m, k) && Usable(w0.table[k]) {
      BothRun(w0, log, m, k);
      PlanFor(w0, w, k);
    }
    forall k, l | k in ks && l in ks ensures !Needs(w0.table, k, l) {
      if Needs(w0.table, k, l) {
        NeededComplete(w0, log, k, l);
      }
    }
    forall x | Threatens(w0.table, m, x) ensures exists k :: k in ks && Needs(w0.table, x, k) {
      var r := ThreatHeld(w0, log, m, x);
      assert r in ToSet(ks);
    }
    assert NoDup(ks + [m]);
    StaffedTogether(w0, w, ks + [m]);
  }

  lemma NothingIndependent(tbl: Table, m: nat)
    requires forall k | k in tbl && k != m :: !CanStart(tbl, k)
    ensures IndependentOf(tbl, m) == {}
  {
    hide CanStart, Needs;
  }

  /** Where a panic threatens and nothing else can be started meanwhile, nothing can be kept running beside `m`. */
  lemma NothingBeside(w0: World, m: nat, x: nat)
    requires Threatens(w0.table, m, x) && IndependentOf(w0.table, m) == {}
    ensures forall ks :: !Beside(w0, m, ks)
  {
    hide CanStart, CanBeReady, Panics, Needs, Staffable;
    forall ks | Beside(w0, m, ks) ensures exists k :: k in IndependentOf(w0.table, m) {
      var k :| k in ks && Needs(w0.table, x, k);
      assert k in IndependentOf(w0.table, m);
    }
  }

  // ---- Counting iterations

  /** How often the scheduler has been consulted since `m` was started. */
  ghost function Consults(log: seq<Event>, m: nat): nat {
    if log == [] then 0 else
      var e := log[|log| - 1];
      if e.Start? && e.m == m then 0
      else Consults(log[..|log| - 1], m) + if e.Start? || e.NoneReady? then 1 else 0
  }

  /** What has been started since `m` was. */
  ghost function StartedAfter(log: seq<Event>, m: nat): set<nat> {
    if log == [] then {} else
      var e := log[|log| - 1];
      if e.Start? && e.m == m then {}
      else StartedAfter(log[..|log| - 1], m) + if e.Start? then {e.m} else {}
  }

  ghost predicate CountedStarts(w0: World, log: seq<Event>, m: nat)
    requires Legal(w0, log)
  {
    && Consults(log, m) <= |StartedAfter(log, m)|
    && forall k | k in StartedAfter(log, m) ::
         k in IndependentOf(w0.table, m) && k in Outcome(w0, log).table && Outcome(w0, log).table[k].status != Waiting
  }

  lemma NothingRuns(w0: World, m: nat)
    requires Initial(w0)
    ensures !Running(w0, m)
  {
  }

  lemma RanBefore(w: World, e: Event, m: nat)
    requires Enabled(w, e) && Running(Apply(w, e), m) && !(e.Start? && e.m == m)
    ensures Running(w, m)
  {
  }

  lemma CountStep(w0: World, log: seq<Event>, m: nat)
    requires Initial(w0) && Legal(w0, log) && log != [] && Running(Outcome(w0, log[..|log| - 1]), m)
    requires var e := log[|log| - 1]; !e.NoneReady? && !(e.Start? && e.m == m)
    requires CountedStarts(w0, log[..|log| - 1], m)
    ensures CountedStarts(w0, log, m)
  {
    var front, e := log[..|log| - 1], log[|log| - 1];
    var w := Outcome(w0, front);
    StepPlan(w, e);
    if e.Start? {
      StartBeside(w0, front, m, e);
      assert e.m !in StartedAfter(front, m);
    }
  }

  /** While `m` runs, every iteration starts another one, unless some can be kept running beside it. */
  lemma {:induction false} RunOutlasts(w0: World, log: seq<Event>, m: nat)
    requires Initial(w0) && Looped(w0, log) && Running(Outcome(w0, log), m)
    ensures (exists ks :: Beside(w0, m, ks)) || CountedStarts(w0, log, m)
    decreases |log|
  {
    if log != [] {
      var front, e := log[..|log| - 1], log[|log| - 1];
      var w := Outcome(w0, front);
      hide Initial, Independent, Beside;
      if e.Start? && e.m == m {
      } else {
        RanBefore(w, e, m);
        RunOutlasts(w0, front, m);
        if e.NoneReady? {
          var ks := NoneMeansBeside(w0, front, m);
        } else if !exists ks :: Beside(w0, m, ks) {
          CountStep(w0, log, m);
        }
      }
    } else {
      NothingRuns(w0, m);
    }
  }

  /** A measurement at work through `n` consultations can be kept at work through as many. */
  lemma MustOutlast(w0: World, log: seq<Event>, m: nat, n: nat)
    requires Initial(w0) && Looped(w0, log) && Running(Outcome(w0, log), m) && n <= Consults(log, m)
    ensures Outlasts(w0, m, n)
  {
    RunOutlasts(w0, log, m);
    hide Beside, Independent, Initial;
    if !exists ks :: Beside(w0, m, ks) {
      SubsetSize(StartedAfter(log, m), IndependentOf(w0.table, m));
    }
  }

  // ---- One phase in an iteration

  ghost function StagesIn(p: Place): nat {
    if p.BringingUp? || p.Passing? then 2 else 3
  }

  ghost predicate WithinReach(w: World, p: Place, m: nat, c: nat) {
    forall i | 0 <= i < |w.clients| && w.clients[i].owner == m :: Stage(w.clients[i].state) <= 2 * c + StagesIn(p)
  }

  lemma NoneYet(w: World, e: Event)
    requires Inv(w) && e.Start? && Enabled(w, e)
    ensures forall i | 0 <= i < |w.clients| :: w.clients[i].owner != e.m
  {
    TableIds(w.table);
    forall i | 0 <= i < |w.clients| ensures w.clients[i].owner != e.m {
      assert w.clients[i].owner != 0 ==> Running(w, w.clients[i].owner);
    }
  }

  lemma OpenPlaces(p: Place, w: World)
    requires Open(p, w)
    ensures StagesIn(p) == 2
  {
  }

  /** How the reach of a place changes with an event. */
  lemma PlaceReach(p: Place, w: World, e: Event)
    requires Allowed(p, w, e)
    ensures 2 <= StagesIn(p) <= 3 && StagesIn(NextPlace(p, e)) >= 2
    ensures StagesIn(NextPlace(p, e)) + (if e.Start? || e.NoneReady? then 2 else 0) >= StagesIn(p)
    ensures e.Send? && !e.msg.Authenticate? ==> StagesIn(p) == 2
    ensures e.Good? ==> StagesIn(NextPlace(p, e)) == 3
  {
    hide Open, Settled, AtHead, AllAwait;
    if Open(p, w) {
      OpenPlaces(p, w);
    }
  }

  lemma AuthenticatesFirst(w: World, e: Event)
    requires Enabled(w, e) && e.Send? && e.msg.Authenticate?
    ensures e.j < |w.clients| && Stage(w.clients[e.j].state) == 1
  {
  }

  lemma ReachOne(c: Client, c': Client, e: Event, i: nat, r: nat, r': nat, m: nat, n: nat, n': nat)
    requires c'.owner == m && (c.owner == m ==> Stage(c.state) <= 2 * n + r) && 2 <= r <= 3
    requires n' == if e.Start? || e.NoneReady? then n + 1 else n
    requires r' + (if e.Start? || e.NoneReady? then 2 else 0) >= r && r' >= 2
    requires e.Send? && e.j == i ==> Stage(c.state) == 1 || r == 2
    requires e.Good? ==> r' == 3
    requires
      if e.Connect? && e.j == i then c'.state == Connected
      else
        && c.owner == c'.owner
        && (e.Send? && e.j == i ==> Stage(c.state) in {1, 3, 5, 7} && Stage(c'.state) == Stage(c.state) + 1)
        && (e.Good? && e.j == i ==> Stage(c.state) in {2, 4, 6, 8} && Stage(c'.state) == Stage(c.state) + 1)
        && (!((e.Send? || e.Good?) && e.j == i) ==> c'.state == c.state)
    ensures Stage(c'.state) <= 2 * n' + r'
  {
  }

  lemma ReachStep(w: World, e: Event, p: Place, m: nat, c: nat)
    requires Inv(w) && Enabled(w, e) && Allowed(p, w, e) && m > 0
    requires WithinReach(w, p, m, c)
    ensures WithinReach(Apply(w, e), NextPlace(p, e), m, if e.Start? || e.NoneReady? then c + 1 else c)
  {
    PlaceReach(p, w, e);
    if e.Send? && e.msg.Authenticate? {
      AuthenticatesFirst(w, e);
    }
    StepPlan(w, e);
    var v, c' := Apply(w, e), if e.Start? || e.NoneReady? then c + 1 else c;
    hide Inv, Enabled, Allowed, Apply, NextPlace, StagesIn;
    forall i | 0 <= i < |w.clients| && v.clients[i].owner == m
      ensures Stage(v.clients[i].state) <= 2 * c' + StagesIn(NextPlace(p, e))
    {
      StageStep(w, e, i);
      ReachOne(w.clients[i], v.clients[i], e, i, StagesIn(p), StagesIn(NextPlace(p, e)), m, c, c');
    }
  }

  /** A client gets two stages further with every consultation, and no more. */
  lemma {:induction false} StageByConsults(w0: World, log: seq<Event>, m: nat)
    requires Initial(w0) && Looped(w0, log) && Running(Outcome(w0, log), m)
    ensures WithinReach(Outcome(w0, log), PlaceOf(log), m, Consults(log, m))
    decreases |log|
  {
    if log == [] {
      NothingRuns(w0, m);
    } else {
      var front, e := log[..|log| - 1], log[|log| - 1];
      RunInv(w0, front);
      hide Initial;
      if e.Start? && e.m == m {
        NoneYet(Outcome(w0, front), e);
      } else {
        RanBefore(Outcome(w0, front), e, m);
        StageByConsults(w0, front, m);
        RunningIsPositive(Outcome(w0, front), m);
        ReachStep(Outcome(w0, front), e, PlaceOf(front), m, Consults(front, m));
      }
    }
  }
}
